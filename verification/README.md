# Verification model of zmq-raft

A Dafny 4.11 model of the Raft peer, its RPC channel, its durable log and the
client streams of zmq-raft, with proofs. `dafny verify dfyconfig.toml` checks the
whole project.

- **Raft.** `RaftPeer` gives each handler of a peer as a function, `RaftSystem` the
  cluster as a step system: timers, requests and replies that arrive, client updates,
  applying, crash and restart. `RaftInvariant` has the inductive invariant, `RaftLogs`
  the consequences for logs, `RaftCore*`, `RaftNet*` and `RaftSteps*` show that every
  step keeps it, `RaftSafety` draws the theorems for all runs, `RaftPanic` and
  `RaftPanicRun` decide when a follower panics. What the peers get done is in
  `RaftElections` (who can be elected), `RaftCommit` and `RaftLateCommit` (when a leader
  commits, and when it is late), `RaftReplies` (what is accepted and what a refusal
  tells), `RaftProgress` (a quorum can commit), `RaftSpiral` (preventSpiralElections) and
  `RaftOwn`. `ZmqRaft` is the peer in the imperative
  form of the program; every handler is proved to compute the function of `RaftPeer`.
  `ClusterConfiguration` counts votes and holders, `Quorum` has the majorities.
- **RPC.** `RpcChannel` is one connection between a socket and a router: stop and wait,
  retransmission, 24-bit ids that wrap, and the duplicate cache.
- **The durable log.** `IndexFile` (one file and its crashes), `IndexFileBatch` (many
  entries at once), `EntryExtractor` (entries from a stream of buffers), `FileLog` (many
  files as one sequence), `FilePersistence` (the journal of term, vote and peers).
- **Clients.** `UpdateRequests` (idempotent updates), `EntriesRequest` and `EntriesRun`
  (the pipelined entries stream, leader and client), `Subscriber` and `ForeverStream`.
- **Small algorithms.** `Lock` (shared and exclusive callbacks), `Bufconv` (integers in
  a variable number of bytes).

How the Raft system is modelled: a handler with its promise chain and its persistence
update is one step, and what it persists is durable when it replies. All peers hold the
same single or joint configuration. The network loses and repeats requests; a connection
is FIFO, a reset gives the socket a new connection, and packets of an old connection may
still arrive. Timers are steps that may happen at any time. Request ids do not wrap in
the system; `RpcChannel` says when the 24-bit ids behave like that.

## Model

| member | source | states |
|---|---|---|
| RaftSafety.ElectionSafety | lib/server/raft_leader.js:55-195 | in every run at most one peer ever leads a term, at however distant moments, across crashes, repeated vote requests and ignored higher terms |
| RaftSafety.TermsNeverFall | lib/server/raft.js:448-479 | a peer's term never falls, crashes included |
| RaftSafety.LogMatching | lib/server/raft_router.js:248-279 | equal terms at an index of two logs, at any two moments of a run, mean equal logs up to that index |
| RaftSafety.LeadersHaveCommitted | lib/server/raft_leader.js:210-226 | what a peer ever took for committed is a prefix of the log of every leader of its term or of a later one |
| RaftSafety.StateMachineSafety | lib/server/raft.js:575-604 | no two peers, and no peer at two moments, apply different entries at an index |
| RaftSafety.MatchIndexIsTrue | lib/server/raft_leader.js:210-226 | a leader's matchIndex of a follower of its own term is true of the follower's log |
| RaftSafety.NextIndexInLog | lib/server/raft_leader.js:287-305 | nextIndex always is a position in the leader's log or right behind it |
| RaftSafety.RefusalsDescend | lib/server/raft_leader.js:271-283 | every refusal of a request of the current term strictly lowers nextIndex, and never below 1 |
| RaftSafety.TruncationIsHarmless | lib/server/raft_router.js:272-279 | whatever became of its sender, an accepted request leaves the log of its term's leader up to its last entry, loses no entry of that leader, and starts at the last index of agreement unless the follower's log was a prefix of the leader's; the leader's log is that of any moment of the run, earlier or later, at which it led the term |
| RaftSafety.SenderLed | lib/server/raft_leader.js:307-398 | every append request ever sent has an earlier moment at which its sender led its term and had all of its entries |
| RaftSafety.PanicOnlyOnRepetition | lib/server/raft_router.js:252-254 | a follower refuses to truncate below its commit index only a request of its own term that was delivered before and would change nothing |
| RaftSafety.StepKeeps | lib/server/raft_router.js:105-305 | every step of the cluster keeps the invariant that all of the above rest on |
| RaftElections.VotesAreTotal | lib/server/raft_router.js:194-198 | of any two peers that ask each other for a later term, one at least gets the vote |
| RaftElections.VotesAreTransitive | lib/server/raft_router.js:194-198 | who would vote for a peer would vote for whoever that peer would vote for |
| RaftElections.ExtensionGetsTheVote | lib/server/raft_router.js:168-212 | in every reachable state a peer that is not held back votes, in a later term, for whoever has all of its log |
| RaftElections.MutualVotesMeanSameLog | lib/server/raft_router.js:194-198 | in every reachable state two peers would vote for each other if and only if their logs are the same |
| RaftElections.CanBeElected | lib/server/raft_leader.js:55-143 | from every reachable state, a peer whose log no voter of a quorum is ahead of leads the next term when its timer goes off and they answer, in any order |
| RaftCommit.MajorityHasLogIndex | lib/common/cluster_configuration.js:218-239 | the count of the configuration is what the leader of the system commits by |
| RaftCommit.CommitsWhenHeld | lib/server/raft_leader.js:219-226 | in every reachable state an acknowledged index of the leader's term is committed if the leader, the follower and those known to have it are a quorum, and the commit index changes for nothing else |
| RaftCommit.CommitsAllHeldIff | lib/server/raft_leader.js:216-226 | a leader that has committed all that a quorum holds of its term goes on doing so after an acknowledgement if and only if a quorum holds the acknowledged index or none holds the first one that is open |
| RaftLateCommit.HeldButOpen | lib/server/raft_leader.js:216-226 | in any cluster of four a state is reached in which a quorum is known to hold an entry of the leader's term that is not committed |
| RaftReplies.AcceptsIffAgrees | lib/server/raft_router.js:223-305 | in every reachable state a request is accepted if and only if it is of no earlier term, starts at or behind the commit index, and the follower's log agrees with the leader's up to there |
| RaftReplies.RefusalGoesBack | lib/server/raft_leader.js:271-283 | after a refusal nextIndex goes one back, or right to the end of a shorter log |
| RaftReplies.CommitIsPassedOn | lib/server/raft_router.js:276-279 | a follower that accepts commits as much as the leader has committed and it has |
| RaftReplies.LaterTermIsEntered | lib/server/raft_leader.js:113-132 | a peer that hears of a later term enters it as a follower, unless it is held back |
| RaftProgress.LeaderCanCommit | lib/server/raft_leader.js:197-398 | from every reachable state, a leader whose requests still get through to a quorum can append a client's update and commit it with all before it |
| RaftProgress.QuorumCanCommit | lib/server/raft_leader.js:55-398 | from every reachable state in which a quorum is up and can elect a peer, there is a run in which it is elected and commits a client's update |
| RaftOwn.LeaderCanSettle | lib/server/raft_leader.js:187-194 | in every reachable state a leader that has something to commit has an entry of its own term at the end, and one without followers has nothing to commit |
| RaftSpiral.TimeoutRaisesTermIff | lib/server/raft_leader.js:59-83 | a timeout raises the term unless the peer is a candidate with preventSpiralElections that no majority has answered |
| RaftSpiral.NoSpiral | lib/server/raft_leader.js:59-66 | such a candidate stays in its term through every run in which no leader reaches it and no majority answers |
| RaftLogs.LeaderCompleteness | lib/server/raft_leader.js:211-226 | an entry that a quorum accepted in its term is in the log of every later leader |
| RaftLogs.CommittedComparable | lib/server/raft_leader.js:211-226 | of two committed logs one is a prefix of the other |
| RaftPanic.PanicsExactlyWhen | lib/server/raft_router.js:148-164 | in every reachable state a delivered append request panics its receiver if and only if it is the one delivered last on its connection, is not in the cache, is of the receiver's term and starts below its commit index |
| RaftPanic.NoPanic | lib/server/raft_router.js:252-254 | no run without crashes and without late requests of older connections panics |
| RaftPanicRun.PanicIsReachable | lib/server/raft_router.js:252-254 | in any cluster of three a follower panics in a run with one crash |
| RaftPanicRun.LatePacketPanics | lib/server/raft_router.js:148-164 | in any cluster of three a follower panics in a run without a crash, after a late request of an older connection took its place in the cache |
| ZmqRaft.ZmqRaft.constructor | lib/server/raft.js:245-340 | the peer starts as a follower with the term, vote and log that were stored |
| ZmqRaft.ZmqRaft.Start | lib/server/raft.js:313-322 | alone in its cluster it leads a new term at once, otherwise nothing changes |
| ZmqRaft.ZmqRaft.ElectionTimeout | lib/server/raft_leader.js:55-111 | the handler computes the election step of the model |
| ZmqRaft.ZmqRaft.VoteAnswer | lib/server/raft_leader.js:113-143 | the same for the answer to a request for votes |
| ZmqRaft.ZmqRaft.VoteAsked | lib/server/raft_router.js:168-212 | the same for a request for votes |
| ZmqRaft.ZmqRaft.TakeOffice | lib/server/raft_leader.js:145-195 | the same for becoming a leader: maps, first requests, checkpoint |
| ZmqRaft.ZmqRaft.AppendAsked | lib/server/raft_router.js:214-305 | the same for an append request, the duplicate cache included |
| ZmqRaft.ZmqRaft.AppendAnswer | lib/server/raft_leader.js:197-285 | the same for the answer to an append request |
| ZmqRaft.ZmqRaft.SendAppendEntries | lib/server/raft_leader.js:307-398 | the same for sending entries to a follower |
| ZmqRaft.ZmqRaft.AppendUpdate | lib/server/raft_server.js:197-215 | the same for a client's update |
| ZmqRaft.ZmqRaft.CancelPendingRpcs | lib/server/raft.js:529-534 | every socket with a pending request gets a new connection, the others stay |
| Quorum.MajorityIsMoreThanHalf | lib/utils/helpers.js:229-231 | a majority is more than half of the members |
| Quorum.QuorumsIntersect | lib/common/cluster_configuration.js:207-239 | two quorums of one configuration, single or joint, share a member |
| Quorum.NeighbourQuorumsIntersect | lib/common/cluster_configuration.js:119-136 | so do quorums of neighbours in Cold, Cold,new, Cnew |
| Quorum.DirectChangeIsUnsafe | lib/common/cluster_configuration.js:146-161 | without the joint stage two quorums can be disjoint |
| ClusterConfiguration.ClusterConfiguration.Replace | lib/common/cluster_configuration.js:119-136 | a membership that parses is taken, with its majorities and other peers; one that does not is rejected, and a joint one of which only the new cluster is malformed leaves its old cluster next to the majority of before |
| ClusterConfiguration.ParsePeers | lib/utils/helpers.js:149-198 | a list of ids parses exactly when it is not empty and its ids are not empty and unique |
| ClusterConfiguration.ClusterConfiguration.UpdatePeers | lib/common/cluster_configuration.js:312-322 | the peers are the members of both clusters, once each |
| ClusterConfiguration.ClusterConfiguration.Join | lib/common/cluster_configuration.js:146-161 | refused in transition, an error for a malformed list, nothing for the same cluster, else the joint membership |
| ClusterConfiguration.ClusterConfiguration.Vote | lib/common/cluster_configuration.js:176-196 | the counters go on standing for the first answer of each peer |
| ClusterConfiguration.ClusterConfiguration.MajorityHasVoted | lib/common/cluster_configuration.js:198-200 | true exactly when those who answered suffice |
| ClusterConfiguration.ClusterConfiguration.HasWonVoting | lib/common/cluster_configuration.js:207-209 | true exactly when those who granted their vote suffice |
| ClusterConfiguration.ClusterConfiguration.MajorityHasLogIndex | lib/common/cluster_configuration.js:218-239 | true exactly when the holders of the index suffice, in transition in both clusters |
| ClusterConfiguration.EnoughHold | lib/common/cluster_configuration.js:218-239 | the countdown over the peers, stopped early, decides whether the holders reach both majorities |
| ClusterConfiguration.ClusterConfiguration.SufficesIsQuorum | lib/common/cluster_configuration.js:207-239 | to suffice is to be a quorum |
| ClusterConfiguration.ClusterConfiguration.EveryoneSuffices | lib/common/cluster_configuration.js:119-136 | all members together suffice in every configuration, and whatever suffices has members of both clusters |
| ClusterConfiguration.JoinKeepsQuorums | lib/common/cluster_configuration.js:146-161 | quorums before, during and after a join meet |
| RpcChannel.ExactlyOnce | lib/server/zmq_rpc_socket.js:143-203 | over a lossy FIFO connection the router executes each cached request once and in order, and each accepted reply is that of its own request, if no gap between cached requests is a multiple of 2^24 |
| RpcChannel.ExecutedIffGapsOk | lib/server/raft_router.js:148-164 | every cached request is executed if and only if no gap between two of them is a multiple of 2^24 |
| RpcChannel.AnsweredWithoutExecution | lib/server/raft_router.js:148-164 | a request is executed exactly when its id is not the one in the cache, and otherwise is answered with the outcome of the earlier one |
| RpcChannel.GapIsReached | lib/server/zmq_rpc_socket.js:314-318 | there is a run without losses in which request 2^24 is answered with the outcome of request 0 and never executed |
| RpcChannel.AnyRequests | lib/server/zmq_rpc_socket.js:143-203 | any sequence of requests can be made and answered |
| RpcChannel.ZmqRpcSocket.Request | lib/server/zmq_rpc_socket.js:143-203 | a new id and a pending request, or a refusal while one is pending |
| RpcChannel.ZmqRpcSocket.Frames | lib/server/zmq_rpc_socket.js:268-286 | a reply resolves the request that is pending, if it has its id |
| IndexFile.CrashSafe | lib/common/indexfile.js:531-578 | a truncation or a write of one entry that is cut short anywhere leaves a file that opens with a log that survives |
| IndexFile.OperationHolds | lib/common/indexfile.js:531-578 | an operation that is not cut short leaves exactly the log it should |
| IndexFile.AlwaysReadable | lib/common/indexfile.js:918-957 | however often operations are cut short or complete, the file opens every time with a log that follows from the one before |
| IndexFile.Unique | lib/common/indexfile.js:943-952 | a file holds one log only, whatever is left over in its table |
| IndexFile.ReadIndexFile | lib/common/indexfile.js:943-952 | the loop finds the next free position, or fails exactly when the offsets before it do not rise |
| IndexFile.IndexFile.Reopen | lib/common/indexfile.js:918-957 | the object over a file with leftovers has the log of the file |
| IndexFile.IndexFile.Clear | lib/common/indexfile.js:730-737 | clears offsets up to the first that is clear |
| IndexFile.IndexFile.TruncateLog | lib/common/indexfile.js:479-494 | the log is cut, through the stages of the model |
| IndexFile.IndexFile.ClearIfDirty | lib/common/indexfile.js:844-851 | leftovers right behind the entry are cleared on the disk |
| IndexFile.IndexFile.WriteEntry | lib/common/indexfile.js:531-578 | the log is cut and gets the entry exactly if a slot is free and its bytes with those before it are at most 0x3fffffff, through the stages of the model |
| IndexFile.FullIff | lib/common/indexfile.js:544-546 | what the table says about the room is true of the sizes of the entries |
| IndexFileBatch.BatchSafe | lib/common/indexfile.js:626-666 | writing many entries at once is safe to be cut short in any of its writes if and only if the slots behind the first were clean when the log was rolled back |
| IndexFileBatch.BatchReady | lib/common/indexfile.js:642-648 | every batch that fits has its data in place before its offsets are written, and its slots are as clean as they were |
| IndexFileBatch.DirtyBatchIsReached | lib/common/indexfile.js:626-666 | a truncation that is cut short, the file opened again with the shorter log, and a batch that is cut short leave a file without a log that should be there |
| IndexFileBatch.BatchSafeIffClean | lib/common/indexfile.js:825-833 | committing many offsets at once is safe to be cut short if and only if the slots they take are clean |
| IndexFileBatch.CleanBatchTorn | lib/common/indexfile.js:825-833 | from clean slots the file opens with the first few of the new entries |
| IndexFileBatch.TornTruncationIsDirty | lib/common/indexfile.js:861-866 | a truncation that is cut short leaves slots that are not clean |
| EntryExtractor.Split | lib/common/indexfile.js:372-393 | splitting a whole buffer gives the entries of the table |
| EntryExtractor.Extractor.Push | lib/common/indexfile.js:986-1087 | a buffer is added to the stream between two calls, and nothing else changes |
| EntryExtractor.Extractor.Next | lib/common/indexfile.js:986-1087 | however the stream is cut into buffers, a call yields the next entry of the whole stream, or nothing exactly when it is not complete, and drops consumed buffers only |
| EntryExtractor.Extractor.SurplusIsKept | lib/common/indexfile.js:986-1087 | at the end the input is empty exactly when there was no surplus data, if and only if there was some or the last buffer pushed was not empty |
| EntryExtractor.Transform | lib/common/indexfile.js:959-978 | a chunk gives the entries it completes; it fails if and only if there is too much data or it is empty and all entries are out |
| EntryExtractor.Pipe | lib/common/indexfile.js:959-986 | the stream over all chunks ends well if and only if they hold just the bytes of the entries and the last one is not empty, and then gives all entries, however they are cut |
| EntryExtractor.EmptyChunkIsLeft | lib/common/indexfile.js:1064-1079 | an empty buffer behind a single entry is left in the input |
| EntryExtractor.EntryStays | lib/common/indexfile.js:372-393 | an entry of the stream so far is the same entry of all of it |
| FileLog.BSearch | lib/server/filelog.js:1145-1157 | the last name that is not behind the one searched for |
| FileLog.CountFitting | lib/common/indexfile.js:228-285 | how many entries fit: the last that fits and the first that does not |
| FileLog.FileLog.IndexFileOf | lib/server/filelog.js:945-975 | the file of an index, or nothing exactly when no file has it |
| FileLog.FileLog.TermAt | lib/server/filelog.js:715-732 | the term of the entry at an index of the one sequence |
| FileLog.FileLog.GetEntries | lib/server/filelog.js:621-647 | the slice of the one sequence, over file boundaries |
| FileLog.FileLog.ReadEntries | lib/server/filelog.js:653-692 | the longest prefix of the slice that fits, or its first entry alone |
| FileLog.FileLog.AppendEntries | lib/server/filelog.js:421-486 | the sequence is cut at the index and gets the entries, over full files and new ones |
| FileLog.FileLog.TruncateFiles | lib/server/filelog.js:488-536 | the sequence is cut, files behind are deleted |
| FileLog.SameDirectory | lib/server/filelog.js:983-998 | an index and its file have the same directory |
| FilePersistence.NothingAcknowledgedIsLost | lib/common/file_persistence.js:204-301 | in every run, reading the journal gives what some of the updates lead to in order, each whole or not at all and every acknowledged one included; so does memory |
| FilePersistence.NothingFollowsATornRecord | lib/common/file_persistence.js:128-136 | in every run only the end of the file is torn |
| FilePersistence.AcknowledgedIsInTheFile | lib/common/file_persistence.js:273-331 | in every run, when an update is acknowledged each property given that has a default has its value, each other one the value from before, and there is no other; so it is in memory, in the file, and when the file is opened again, also after a loss of power |
| FilePersistence.JournalStaysSmall | lib/common/file_persistence.js:278-282 | after an acknowledged update the file is past the threshold by less than one record, or has one record only |
| FilePersistence.BeforeOrAfter | lib/common/file_persistence.js:204-301 | an update that is cut short leaves the state before it or after it |
| FilePersistence.ReadAll | lib/common/file_persistence.js:104-138 | the reading loop replays the records and notices an unfinished one |
| FilePersistence.FilePersistence.constructor | lib/common/file_persistence.js:62-138 | the object opens with what the file says, and will rotate next if it is torn |
| FilePersistence.FilePersistence.Update | lib/common/file_persistence.js:273-301 | one record is added, or a new file written, with every way it may fail; when it is acknowledged, memory and file have each property given and keep the others |
| FilePersistence.FilePersistence.Rotate | lib/common/file_persistence.js:204-251 | a full record in a new file replaces the journal at once; when it is acknowledged, it has each property given and keeps the others |
| UpdateRequests.AppendedAtMostOnce | lib/server/raft_server.js:150-227 | in every run of one leadership no id is appended that the log has |
| UpdateRequests.FinalReplyIsTrue | lib/server/raft_server.js:216-220 | a final success names an applied index that holds the id |
| UpdateRequests.NobodyWaitsInVain | lib/server/raft.js:592-602 | nobody waits for an index that is applied |
| UpdateRequests.RepeatedRequestIsHarmless | lib/common/log_entry.js:41-83 | a request with an id of the log waits, is known, or is refused as too old |
| UpdateRequests.OnceIffUnlimited | lib/server/filelog.js:1071-1083 | ids are appended once in every run if and only if the cache has no size limit |
| UpdateRequests.LimitedCacheForgets | lib/server/filelog.js:1071-1083 | for every limit there is a run that appends an id twice |
| UpdateRequests.NewIdIsAcceptedIff | lib/common/log_entry.js:61-83 | a new id is accepted and written last if and only if there is no time to live or it lies within it, less the margin, and not further ahead than the margin; otherwise it is refused and nothing changes |
| UpdateRequests.RetryIsNotRefused | lib/server/raft_server.js:176-199 | an id once accepted is not refused while it is younger than the time to live less the margin |
| UpdateRequests.AcceptedIsAnswered | lib/server/raft.js:592-602 | in every run, who was told that the request is accepted is told its index when that is applied, and until then it is being written or waits for an index that holds it |
| UpdateRequests.ForgetsExactly | lib/server/filelog.js:1071-1083 | forgotten is what is past its time to live or has no room, from the oldest on, and the first id kept is neither |
| UpdateRequests.UpdateHandler.RequestUpdate | lib/server/raft_server.js:150-227 | the handler computes the request step; a new id is accepted exactly within the limits of the clock |
| UpdateRequests.UpdateHandler.AppendState | lib/server/filelog.js:440-467 | the log writes the oldest waiting entry and caches its id unless it expired |
| UpdateRequests.UpdateHandler.ApplyToStateMachine | lib/server/raft.js:590-602 | all requests up to the applied index, and no others, get their final reply |
| UpdateRequests.UpdateHandler.CleanUpCache | lib/server/filelog.js:1071-1083 | ids are forgotten from the oldest on up to the first that is kept |
| Lock.ExclusiveRunsAlone | lib/utils/lock.js:77-90 | in every run no callback runs beside an exclusive one |
| Lock.ExclusiveIsOrdered | lib/utils/lock.js:77-90 | all registered before an exclusive callback have ended when it starts, none registered after it starts before it ends |
| Lock.StartsAsSoonAsAllowed | lib/utils/lock.js:31-90 | a callback can start exactly when all fenced off before it have ended |
| Lock.SharedDoNotWait | lib/utils/lock.js:31-53 | shared callbacks without an exclusive one between them wait for the same |
| Lock.NeverStuck | lib/utils/lock.js:31-90 | while a callback is left one runs or can start |
| Lock.Locks.Shared | lib/utils/lock.js:31-53 | the registration of a shared callback, scope by scope |
| Lock.Locks.Exclusive | lib/utils/lock.js:77-90 | the registration of an exclusive callback |
| Bufconv.UIntCodec | lib/utils/bufconv.js:125-152 | 1 to 7 bytes, reads back also when padded, no shorter form |
| Bufconv.IntCodec | lib/utils/bufconv.js:167-212 | 1 to 7 bytes, reads back, no shorter form; padded it reads back if and only if it is not negative |
| Bufconv.TruncateAndSubtract | lib/utils/bufconv.js:180-191 | truncating and subtracting one unless exact is the floor |
| Bufconv.WriteBufUIntLE | lib/utils/bufconv.js:125-152 | the field holds the form of the value, cut to its room or padded, and nothing else changes |
| Bufconv.WriteBufIntLE | lib/utils/bufconv.js:167-212 | the same for signed integers |
| Bufconv.ReadBufUIntLE | lib/utils/bufconv.js:248-262 | the value of the field, null for an empty one, an error above the maximum |
| Bufconv.ReadBufIntLE | lib/utils/bufconv.js:276-305 | the same for signed integers |
| Bufconv.FieldReadsBack | lib/utils/bufconv.js:125-305 | what was written to a field of seven bytes or more is read from it |
| Subscriber.PushedInOrder | lib/client/zmq_raft_subscriber.js:279-412 | in every run each index is pushed once, in order and without gaps, and the count assertion never fails |
| Subscriber.PushedIsTheLog | lib/client/zmq_raft_subscriber.js:279-412 | if what was heard is true of the log, what was pushed is the log from the start on |
| Subscriber.NoBatchIsForgotten | lib/client/zmq_raft_subscriber.js:279-324 | in every run each batch that was broadcast is pushed or kept for later |
| Subscriber.GapIsFilled | lib/client/zmq_raft_subscriber.js:372-405 | before a batch with a gap just what is missing is asked for, and then both are pushed in order |
| Subscriber.FlushStopsAtAGap | lib/client/zmq_raft_subscriber.js:307-324 | all that came ahead is flushed up to a gap, for which entries are asked |
| Subscriber.BackPressure | lib/client/zmq_raft_subscriber.js:349-378 | while the reader does not keep up nothing is asked for |
| Subscriber.ZmqRaftSubscriber.AppendEntries | lib/client/zmq_raft_subscriber.js:330-347 | what is new in a batch is pushed, unless entries are missing before it |
| Subscriber.ZmqRaftSubscriber.HandleBroadcast | lib/client/zmq_raft_subscriber.js:279-305 | the handler computes the broadcast step |
| Subscriber.ZmqRaftSubscriber.FlushAhead | lib/client/zmq_raft_subscriber.js:307-324 | the loop computes the flush of what came ahead |
| Subscriber.ZmqRaftSubscriber.OnData | lib/client/zmq_raft_subscriber.js:386-398 | an entry that fills a gap is pushed unless it is known |
| ForeverStream.SentInOrder | lib/client/zmq_raft_peer_sub.js:429-537 | in every run each index is sent once, in order and without gaps |
| ForeverStream.SentIsTheLog | lib/client/zmq_raft_peer_sub.js:429-537 | if what was heard is true of the log, what was sent is the log from the start on |
| ForeverStream.GapIsBridged | lib/client/zmq_raft_peer_sub.js:429-466 | before a batch with a gap what is missing is asked for, and when just that was fetched, both are sent in order |
| ForeverStream.FlowStops | lib/client/zmq_raft_peer_sub.js:491-537 | a push that is not taken stops the flow until the reader asks again, and it then gets what it missed |
| ForeverStream.ForeverEntriesStream.PushEntries | lib/client/zmq_raft_peer_sub.js:519-537 | only a batch that continues the stream exactly is pushed |
| ForeverStream.ForeverEntriesStream.OnPulse | lib/client/zmq_raft_peer_sub.js:429-438 | the handler computes the pulse step |
| ForeverStream.ForeverEntriesStream.OnEnd | lib/client/zmq_raft_peer_sub.js:459-466 | what came in the meantime is pushed if it fits and dropped otherwise |
| EntriesRequest.ReceiverGetsTheLog | lib/client/zmq_raft_peer_client.js:497-527 | in every run, with losses, cancellations and repeated requests, the receiver gets the log from the start on, each entry once, within what it asked for |
| EntriesRequest.CompleteIsAll | lib/client/zmq_raft_peer_client.js:513-527 | a client that was told it has all has what it asked for, or all that was applied when it began |
| EntriesRequest.LeaderKeepsTheLimit | lib/server/raft_server.js:295-311 | the leader has as many batches on the way as the limit allows, never more, and sends nothing that is not applied |
| EntriesRequest.PumpKeeps | lib/server/raft_server.js:295-311 | what is sent continues the stretch sent before, and exactly the batch that ends at the last index is marked as the last |
| EntriesRequest.ConfirmedKeeps | lib/server/raft_server.js:333-366 | whatever is confirmed, what is sent then continues the stretch sent before |
| EntriesRun.ConfirmationGoesOn | lib/server/raft_server.js:333-366 | a confirmation of the first batch on the way takes it off the queue and sends as many others as the limit allows; the stream ends if and only if all is read from the log and at most one batch is left |
| EntriesRun.AllArrives | lib/server/raft_server.js:266-390 | in every run without losses and cancellations, when nothing is left to be done, the client was told that it has all and has all that it asked for, or all that was applied when it began |
| EntriesRequest.GoesOnWhereItStopped | lib/client/zmq_raft_peer_client.js:545-558 | unless the order was wrong, the state for going on elsewhere names the last index received |
| EntriesRequest.NamesItsIndexIff | lib/client/zmq_raft_peer_client.js:501-506 | in every run, that index is right if and only if every response that was taken is in order or names the client's own index |
| EntriesRequest.LostResponseIsSkipped | lib/client/zmq_raft_peer_client.js:501-506 | after a lost response the named index skips entries that were never received |
| EntriesRequest.EntriesPipe.SendQueued | lib/server/raft_server.js:295-311 | the loop sends what the model sends, and ends the stream when no confirmation is due |
| EntriesRequest.EntriesPipe.OnData | lib/server/raft_server.js:313-327 | a batch of the log stream is queued and sent as in the model |
| EntriesRequest.EntriesPipe.Request | lib/server/raft_server.js:333-366 | a confirmation is handled as in the model |
| EntriesRequest.EntriesReceiver.OnResponse | lib/client/zmq_raft_peer_client.js:450-535 | a response is handled as in the model |

## Findings

Properties that the code does not have in full, with the input and the condition.

| property | it fails on | it holds exactly when |
|---|---|---|
| a follower never refuses to truncate below its commit index (lib/server/raft_router.js:252-254) | a request that brings an entry and its commit, repeated after a crash (`RaftPanicRun.PanicIsReachable`) or after a late request of an older connection (`RaftPanicRun.LatePacketPanics`) | the request is not the last one of its connection and missing from the cache while it starts below the commit index in the same term (`RaftPanic.PanicsExactlyWhen`) |
| every request to append is executed (lib/server/raft_router.js:148-164) | a cached request, 2^24 - 1 requests for votes and a cached request (`RpcChannel.GapIsReached`) | no distance between consecutive cached requests is a multiple of 2^24 (`RpcChannel.ExecutedIffGapsOk`) |
| an update id is appended at most once (lib/server/filelog.js:1071-1083) | a full cache, one more id, a clean-up and the retry of the oldest id (`UpdateRequests.LimitedCacheForgets`) | `requestIdCacheMax` is null (`UpdateRequests.OnceIffUnlimited`) |
| a leader commits every index of its term that a majority holds (lib/server/raft_leader.js:216-226) | in a cluster of four, one follower has the first of two entries and another acknowledges both at once (`RaftLateCommit.HeldButOpen`) | the acknowledged index itself is held by a quorum, or the first open one is not (`RaftCommit.CommitsAllHeldIff`) |
| a batch that is cut short leaves some of the batch behind the log (lib/common/indexfile.js:626-666) | a table with leftovers of a torn truncation (`IndexFileBatch.DirtyBatchIsReached`) | the slots behind the first one are empty or hold the very offsets to come when the log is rolled back (`IndexFileBatch.BatchSafe`) |
| the state attached to a failed entries request is where to go on (lib/client/zmq_raft_peer_client.js:501-506) | a lost response followed by the next one (`EntriesRequest.LostResponseIsSkipped`) | every response that was taken is in order or names the client's own index (`EntriesRequest.NamesItsIndexIff`) |
| the stream of entries ends well when it got just the bytes of its entries (lib/common/indexfile.js:959-986) | a whole entry and then an empty chunk (`EntryExtractor.EmptyChunkIsLeft`) | the last chunk is not empty, or there is none (`EntryExtractor.Pipe`) |
| a padded integer reads back (lib/utils/bufconv.js:205-209) | any negative integer with padding | it is not negative or not padded (`Bufconv.IntCodec`) |

## Left out

- Membership changes in whole runs: the cluster is fixed; leaving a cluster also clears `votedFor` within a term, which the system does not have.
- Snapshots, compaction and configuration entries in the Raft system; `installSnapshotHandler` is not part of this model.
- Interleaving within one handler's promise chain: a handler and its persistence update are one step.
- Log stream (lib/server/logstream.js): its chunking over index files; the extractor it uses is modelled.
- Timers, random timeouts, urls, ØMQ sockets, msgpack and console output.
- Liveness: that elections end or updates are committed in every fair run; what is proved is that a quorum that is up can always do both.
- RpcChannel.ExactlyOnce: one connection between two resets; the cancelling of a pending request by an error is not modelled.
- IndexFile.CrashSafe: disk writes reach the disk in program order; the size of the data behind the table is part of reading the log, as the program finds it when it reads an entry.
- FileLog.FileLog.AppendEntries: the request-id cache is in `UpdateRequests`; uncommitted writes and log rotation by a snapshot are not modelled; file capacities are powers of two up to 2^20 and no file is filled by data size.
- FilePersistence.FilePersistence.Update: the write callback is taken to be called on success and the error event on failure; once made, the renaming of a file is durable; a rotation's history copies are not modelled.
- UpdateRequests.AppendedAtMostOnce: one leadership with a clock that does not go back; configuration updates share the cache but not this model.
- ClusterConfiguration.ClusterConfiguration.Replace: urls of peers, and that those of the new cluster are consistent with those of the old one, are not modelled.
- ClusterConfiguration.ClusterConfiguration.Join: the same.
- ClusterConfiguration.ParsePeers: the same.
- ZmqRaft.ZmqRaft.AppendAsked: configuration entries in the request are not modelled, as the membership is fixed.
- ZmqRaft.ZmqRaft.AppendAnswer: what a committed configuration entry does is not modelled, as the membership is fixed.
- ZmqRaft.ZmqRaft.CancelPendingRpcs: heartbeat timers and the callbacks of waiting clients are not part of the peer.
- IndexFile.IndexFile.WriteEntry: uncommitted writes, which leave the offset in memory only, are not modelled.
- IndexFileBatch.BatchSafe: the entries are those of the batch that fit into the table and the file; writev is given by its stages, without the object's fields.
- EntriesRequest.EntriesReceiver.OnResponse: snapshot chunks are not modelled.
- ZmqRaft.ZmqRaft.VoteAnswer: the peer counts its votes in sets of its own; that the counters of the configuration say the same is proved in `ClusterConfiguration`.
- Bufconv.ReadBufIntLE: exact arithmetic; on fields longer than seven bytes the program's floating point rounds.
- Bufconv.ReadBufUIntLE: the same.
- Subscriber.PushedInOrder: authentication of broadcasts, snapshot chunks and the timing of backpressure; a full reader is a flag of each event.
- EntriesRequest.ReceiverGetsTheLog: the log starts at index 1, so that no snapshot is sent; the limit on the number of requests and their expiry are cancellations.
