# Blun.MQ: the replicated queue, its log store and its consume protocol

Blun.MQ keeps named FIFO queues on a small cluster. Every publish and every pop is
an entry of a Raft log; openraft agrees on the log, raft-engine stores it, and each
node applies it to an in-memory queue state. A second Raft group keeps a directory of
the nodes. This project models what Blun.MQ itself implements around the two
libraries and proves how the parts fit together.

* **Queue state machine** (`Types`, `QueueModel`, `QueueHistory`, `SnapshotCodec`,
  `Snapshots`, `StateMachine`, `Replicas`). `StateMachine` has the objects: a
  `QueueState` shared by a store, its snapshot builders and the status readers.
  `QueueModel` has the functions they are proved against, and `QueueHistory` an
  independent reading of a log (what was published to a queue, how many of it were
  popped) that the state machine is proved to agree with. `Replicas` runs a whole
  cluster (`Clusters`) of replicas with racing snapshot builders over one committed log.
* **Node directory** (`NodeModel`, `NodeStateMachine`, `NodeReplicas`). Same shape, but
  last-writer-wins, which gives stronger theorems: a cluster of directories heals
  whatever snapshots it installs.
* **Durable log** (`RaftEngine`, `LogStore`, `LogRefinement`, `LogSession`,
  `Recovery`). The store's calls over raft-engine, their refinement of a simple log
  under crashes at every point, and the recovery of a whole queue node.
* **Consume and publish** (`ConsumeStream`, `Consume`, `Delivery`, `Progress`,
  `Scenarios`, `Publish`). The pop workers, bounded channels, forwarded streams and clients as a step system over the
  committed log, and publishes through any number of forward hops. `Progress` says
  what can happen from any state, and `Scenarios` has concrete runs, among them those that
  show what consume does not promise.
* **Peer list** (`Peers`). The start-up configuration string.

## Assumptions about the environment

* openraft applies committed entries in log order, once per process life; it saves
  the committed id before it applies, only for entries appended locally, and never
  lowers it; it truncates only above the committed id, and the append that follows
  starts where the truncation cut; it appends entries with consecutive indexes and
  leaders that never go down; it purges upwards, at or below the committed id, or,
  after installing a snapshot that reaches beyond the local log, up to its last id. These
  are `LogRefinement.Allowed` and `Recovery.MayHappen`. It installs only snapshots
  that are ahead of what the replica applied.
* raft-engine writes a batch atomically and synced; an append drops what lies at or
  above its first index and refuses holes and compacted indexes; `compact_to` is not
  synced and may be lost in a crash until the next synced write; reads inside the
  stored range are exact, and reads that leave it are errors. These are the `Disk`
  functions and `Engine` class of `RaftEngine`; the library itself is not part of this model.
* serde_json is injective: a document is modelled as its content, and a JSON object
  as the list of its members in the order they were written.
* Log indexes are 64-bit, so no log holds 2^64 entries. Offsets are 64-bit and wrap
  in the model; where the bound matters it is stated on the log's length.
* A node whose `client_write` succeeds committed the request it was given, and two
  calls commit two entries.

## Where the code and its comments differ

* `mq.proto` promises at-least-once delivery and a comment in `consume` says
  exactly-once. The code is at most once: a popped message is gone from the queue
  before anybody holds it, and acknowledgements are ignored. The model follows the code
  (`Scenarios.PoppedAndLost`, `Delivery.NothingLostIff`).
* A snapshot's data is read from the live state while its meta was copied when the
  builder was opened. For queues the two agree well enough exactly when
  `Snapshots.HonestIff` says so; for the node directory they always do.
* A comment in `main.rs` says that the queue state is rebuilt by replaying the log. A
  restarted node has no snapshot. Once a committed id was saved, it can rebuild exactly
  while the disk holds entries from index 0 on (`Recovery.RebuildIff`,
  `PurgedCannotRebuild`). Where none was saved it starts from empty state without an
  error, even if a snapshot had been installed and its entries purged
  (`UnsavedRebuildsNothing`).
* A purge is a marker write followed by a compaction. Cut short by a crash, a purge
  beyond the end of the log (as after installing a snapshot) leaves the marker above
  the last log id and makes the engine refuse the next append
  (`LogRefinement.TornPurgeIff`, `AppendAfterTornPurgeIff`, `TornPurgeExample`).
  Without any crash, a purge while `truncate` has left stale entries of an older leader
  beyond the purged index does the same to the marker (`PurgeIff`, `StalePurgeExample`).
* A comment at `save_committed` says that saving the committed id keeps start-up
  validation satisfied after a purge. For purges of saved entries it does; a purge
  beyond the log's end overtakes the saved id (`LogRefinement.OpCovers`,
  `PastPurgeOvertakes`).

## Model

| member | source | states |
|---|---|---|
| QueueModel.ApplyView | src/Blun.Mq.Raft/src/state_machine.rs:30-57 | a request changes only the queue it names: a publish appends one message under the current counter and bumps the counter, a pop drops the front or nothing |
| QueueModel.RunAppend | src/Blun.Mq.Raft/src/state_machine.rs:147-166 | applying two batches leaves what applying them as one batch leaves |
| QueueModel.ResponseAt | src/Blun.Mq.Raft/src/state_machine.rs:152-165 | response k of a batch is the answer of the state that the first k entries left |
| QueueModel.MembershipIsLast | src/Blun.Mq.Raft/src/state_machine.rs:152-165 | a run of entries leaves the membership that its last membership entry says, stamped with that entry's id, or the old one if there is none |
| QueueHistory.StateIsHistory | src/Blun.Mq.Raft/src/state_machine.rs:17-57 | for every log and queue: contents are the published history minus its popped prefix, the counter is the number of publishes mod 2^64, and both maps have exactly the queues ever published to |
| QueueHistory.ResponseIsHistory | src/Blun.Mq.Raft/src/state_machine.rs:30-57 | a publish is answered with its position in its queue's history, a pop with the oldest message left or nothing, any other entry with the empty response |
| QueueHistory.PopsAreFifo | src/Blun.Mq.Raft/src/state_machine.rs:45-55 | the successful pops of a queue return its history from the start, in order, nothing skipped or repeated |
| QueueHistory.OffsetIsPosition | src/Blun.Mq.Raft/src/state_machine.rs:33-39 | the k-th message published to a queue carries offset k mod 2^64 |
| QueueHistory.OffsetsUniqueIff | src/Blun.Mq.Raft/src/state_machine.rs:33-35 | the offsets of a queue are pairwise different if and only if at most 2^64 messages were published to it |
| QueueHistory.PublishStays | src/Blun.Mq.Raft/src/state_machine.rs:32-44 | the offset a publish was answered with names its payload in every longer history |
| QueueHistory.Projection | src/Blun.Mq.Raft/src/state_machine.rs:30-57 | from any state, a queue's contents, counter and answers are those of running only the entries that name it |
| QueueHistory.DifferentQueuesCommute | src/Blun.Mq.Raft/src/state_machine.rs:30-57 | adjacent requests on different queues commute, in the whole state and in both responses |
| SnapshotCodec.Members | src/Blun.Mq.Raft/src/state_machine.rs:93-100 | walking a map yields each binding once and nothing else, in whatever order |
| SnapshotCodec.RoundTrip | src/Blun.Mq.Raft/src/state_machine.rs:65-69 | whatever the iteration order of both maps, a snapshot reads back as the state it was taken of, drained queues included |
| SnapshotCodec.DocumentsAgreeIff | src/Blun.Mq.Raft/src/state_machine.rs:188-207 | two snapshot documents decode alike if and only if they were taken of equal states |
| SnapshotCodec.OtherDocument | src/Blun.Mq.Raft/src/state_machine.rs:93-100 | any document of a state with two queues or more has a different one of the same state |
| Snapshots.RunCounts | src/Blun.Mq.Raft/src/state_machine.rs:30-57 | from any state, entries move a queue's counter by their publishes to it, and without publishes shrink the queue by their pops down to empty |
| Snapshots.HonestIff | src/Blun.Mq.Raft/src/state_machine.rs:90-119 | a snapshot built after entries were applied since its builder was opened, installed and replayed from its meta, gives the full replay if and only if those entries publish nothing and every queue they pop is empty or absent afterwards |
| Snapshots.HonestForSuffixesIff | src/Blun.Mq.Raft/src/state_machine.rs:168-175 | the same condition decides whether such a snapshot serves every later suffix of the log |
| Snapshots.LatePublishIsDoubled | src/Blun.Mq.Raft/src/state_machine.rs:168-175 | one publish between opening and building is stored twice by the installing replica |
| StateMachine.QueueState.Apply | src/Blun.Mq.Raft/src/state_machine.rs:30-57 | the in-place update leaves the state and returns the response of the request functions |
| StateMachine.QueueState.Depths | src/Blun.Mq.Raft/src/state_machine.rs:23-28 | the depth of every queue the state holds |
| StateMachine.StateMachineStore.Apply | src/Blun.Mq.Raft/src/state_machine.rs:147-166 | a batch leaves what its entries one by one leave in state and applied id, the membership its last membership entry says, and one response per entry in order |
| StateMachine.StateMachineStore.GetSnapshotBuilder | src/Blun.Mq.Raft/src/state_machine.rs:168-175 | a new object with the same live state, its own copy of applied id and membership, and no snapshot |
| StateMachine.StateMachineStore.BuildSnapshot | src/Blun.Mq.Raft/src/state_machine.rs:90-119 | the data encodes the state at build time, the meta is the builder's, and only the builder's own snapshot changes |
| StateMachine.StateMachineStore.InstallSnapshot | src/Blun.Mq.Raft/src/state_machine.rs:183-217 | the shared state becomes the decoded data, applied id and membership those of the meta, and the snapshot is kept |
| StateMachine.SnapshotRace | src/Blun.Mq.Raft/src/state_machine.rs:90-217 | on the objects: open a builder, apply, build, install elsewhere, catch up; the two stores end equal exactly under the honesty condition, and the source keeps its own snapshot |
| Replicas.NextKeepsInv | src/Blun.Mq.Raft/src/state_machine.rs:147-217 | every step of a cluster (batches, builders, builds, installs of snapshots that pass the honesty condition) keeps each replica, builder and snapshot a stretch of the one log's replay |
| Replicas.Convergence | src/Blun.Mq.Raft/src/state_machine.rs:147-217 | in every run, a replica that has caught up with its data is the replay of the prefix it applied |
| Replicas.ConvergenceAtApplied | src/Blun.Mq.Raft/src/state_machine.rs:147-217 | where log entries carry their position as index and installed snapshots match their meta, two replicas with the same applied id agree on queues, counters and membership |
| Replicas.MatchesIff | src/Blun.Mq.Raft/src/state_machine.rs:90-119 | a snapshot's data is the replay at its meta if and only if the entries applied since its builder was opened publish nothing and pop only empty or absent queues |
| Replicas.MatchingIsReplay | src/Blun.Mq.Raft/src/state_machine.rs:183-217 | if every installed snapshot's data matches its meta, every replica always is the replay of the prefix it applied, and no position goes back |
| Replicas.ReplicaMembership | src/Blun.Mq.Raft/src/state_machine.rs:147-217 | at every moment of every run a replica's membership and applied id are those the log set last before its position |
| Replicas.ReplicasHoldHistory | src/Blun.Mq.Raft/src/state_machine.rs:192-207 | at every moment of every run each replica holds the history of some log prefix, after draining and installs too |
| Replicas.SnapshotCatchesUp | src/Blun.Mq.Raft/src/state_machine.rs:90-217 | a lagging replica can always be brought level: builder, build and install of one ahead of it go through and leave it equal in everything |
| Replicas.RacedSnapshot | src/Blun.Mq.Raft/src/state_machine.rs:90-175 | what is applied between opening a builder and building is in the data but not in the meta |
| Replicas.BatchAdvances | src/Blun.Mq.Raft/src/state_machine.rs:147-166 | a batch takes a replica to the replay of the longer prefix and touches nothing else |
| Replicas.StatusReadsArePrefixes | src/Blun.Mq.Raft/src/state_machine.rs:23-28 | with matching snapshots, depth reads anywhere are publishes minus successful pops of a log prefix, and those prefixes never go back |
| Replicas.BatchingIsInvisible | src/Blun.Mq.Raft/src/state_machine.rs:152-165 | however a log is cut into batches its entries get the same responses, one each, in order |
| NodeModel.DirectoryIsLastWrite | src/Blun.Mq.Raft/src/node_state_machine.rs:22-31 | a node's address is the one last written to the log, or the initial one if the log never wrote it |
| NodeModel.MembershipIsLast | src/Blun.Mq.Raft/src/node_state_machine.rs:104-123 | a run of entries leaves the membership that its last membership entry says, or the old one |
| NodeModel.RunTwice | src/Blun.Mq.Raft/src/node_state_machine.rs:22-31 | applying entries to their own outcome leaves the directory unchanged |
| NodeModel.LateSnapshotsHeal | src/Blun.Mq.Raft/src/node_state_machine.rs:57-158 | a snapshot newer than its meta, installed and replayed from its meta, equals the full replay for all entries in between and all later suffixes |
| NodeReplicas.BuildHeals | src/Blun.Mq.Raft/src/node_state_machine.rs:57-76 | data that heals when replayed from some position also heals when replayed from any earlier one |
| NodeReplicas.NextKeepsInv | src/Blun.Mq.Raft/src/node_state_machine.rs:57-158 | every step of a cluster of directories, with any late builders and installs of any snapshots that are ahead, keeps every replica and snapshot healing |
| NodeReplicas.EveryoneHeals | src/Blun.Mq.Raft/src/node_state_machine.rs:57-158 | through any chain of installs, late builders and partial replays: a replica that applies the log as far as the furthest one has is exactly the full replay |
| NodeReplicas.FrontRunnersAgree | src/Blun.Mq.Raft/src/node_state_machine.rs:57-158 | two replicas that are as far as anyone agree on addresses, membership and applied id, with no condition on snapshots |
| NodeReplicas.ReplicaMembership | src/Blun.Mq.Raft/src/node_state_machine.rs:104-158 | at every moment of every run a replica's membership is the one the log set last before its position |
| NodeReplicas.SnapshotCatchesUp | src/Blun.Mq.Raft/src/node_state_machine.rs:57-158 | a lagging replica can always be brought level by a snapshot of one ahead of it |
| NodeReplicas.RacedSnapshot | src/Blun.Mq.Raft/src/node_state_machine.rs:57-132 | what is applied between opening a builder and building is in the data but not in the meta |
| NodeReplicas.BatchAdvances | src/Blun.Mq.Raft/src/node_state_machine.rs:104-123 | a batch takes a replica to the replay of the longer prefix and touches nothing else |
| NodeStateMachine.NodeDirectory.Apply | src/Blun.Mq.Raft/src/node_state_machine.rs:23-30 | an upsert sets the one id it names |
| NodeStateMachine.NodeStateMachineStore.Apply | src/Blun.Mq.Raft/src/node_state_machine.rs:104-123 | a batch leaves what its entries one by one leave, the membership its last membership entry says, and one response per entry |
| NodeStateMachine.NodeStateMachineStore.GetSnapshotBuilder | src/Blun.Mq.Raft/src/node_state_machine.rs:125-132 | a new object with the same live directory and its own copy of applied id and membership |
| NodeStateMachine.NodeStateMachineStore.BuildSnapshot | src/Blun.Mq.Raft/src/node_state_machine.rs:57-76 | the data is the directory at build time, the meta the builder's |
| NodeStateMachine.NodeStateMachineStore.InstallSnapshot | src/Blun.Mq.Raft/src/node_state_machine.rs:140-158 | directory, applied id, membership and kept snapshot become those of the snapshot |
| NodeStateMachine.SnapshotRace | src/Blun.Mq.Raft/src/node_state_machine.rs:57-158 | on the objects: the late-built snapshot always brings the target to where the source is |
| LogRefinement.DecodesIff | src/Blun.Mq.Raft/src/raft_engine_log_store.rs:62-78 | blobs filed under their entries' own indexes decode to given entries if and only if they are those entries' encoding; a single bad blob makes it an error |
| LogStore.RaftEngineLogStore.TryGetLogEntries | src/Blun.Mq.Raft/src/raft_engine_log_store.rs:126-152 | the entries of the normalised range, or the engine's or decoder's error |
| LogStore.RaftEngineLogStore.GetLogState | src/Blun.Mq.Raft/src/raft_engine_log_store.rs:162-191 | the purge marker and the last entry's id, falling back to the marker when no entry is visible |
| LogStore.RaftEngineLogStore.SaveVote | src/Blun.Mq.Raft/src/raft_engine_log_store.rs:197-212 | the vote is what a later read returns, and nothing else on disk changes |
| LogStore.RaftEngineLogStore.SaveCommitted | src/Blun.Mq.Raft/src/raft_engine_log_store.rs:221-236 | the committed id, a missing one included, is what a later read returns |
| LogStore.RaftEngineLogStore.ReadCommitted | src/Blun.Mq.Raft/src/raft_engine_log_store.rs:238-244 | the saved id, with no key and a saved `None` both read as none |
| LogStore.RaftEngineLogStore.ReadVote | src/Blun.Mq.Raft/src/raft_engine_log_store.rs:246-251 | the saved vote, if any |
| LogStore.SavedReadsIff | src/Blun.Mq.Raft/src/raft_engine_log_store.rs:162-167 | each key reads as what was written under it, as nothing where it is missing, and anything else under it is an error |
| LogStore.RaftEngineLogStore.Append | src/Blun.Mq.Raft/src/raft_engine_log_store.rs:253-294 | one batch: the encoded entries replace everything from their first index on, unless the engine refuses; the flush callback is told what is returned |
| LogStore.RaftEngineLogStore.Truncate | src/Blun.Mq.Raft/src/raft_engine_log_store.rs:296-303 | nothing on disk changes |
| LogStore.RaftEngineLogStore.Purge | src/Blun.Mq.Raft/src/raft_engine_log_store.rs:305-322 | the durable marker first, then the compaction up to and including the id |
| LogRefinement.OpKeeps | src/Blun.Mq.Raft/src/raft_engine_log_store.rs:197-322 | every allowed call, each half of a purge, a purge beyond the log's end after a snapshot install (a truncation pending or not, no stale entry reaching beyond the purged index), and a crash keep the refinement of the simple log, and the engine never refuses |
| LogRefinement.RunRefines | src/Blun.Mq.Raft/src/raft_engine_log_store.rs:253-322 | so does every disciplined run with crashes anywhere: the simple log stays a prefix of the stored entries, or the disk is empty and the log goes on behind the purged id; purges within the log keep the marker at or below the committed id |
| LogRefinement.OpCovers | src/Blun.Mq.Raft/src/raft_engine_log_store.rs:214-220 | a call keeps the marker at or below the committed id, except exactly where a purge beyond the log's end goes past it |
| LogRefinement.PastPurgeOvertakes | src/Blun.Mq.Raft/src/raft_engine_log_store.rs:214-220 | a purge to a snapshot beyond the log's end that covers what was committed always leaves the marker above the saved committed id |
| LogRefinement.ReadsAreExact | src/Blun.Mq.Raft/src/raft_engine_log_store.rs:126-152 | every range of indexes inside the simple log reads exactly, said by an included, excluded or missing start and an included or excluded end, a truncation pending or not |
| LogRefinement.TruncateThenAppend | src/Blun.Mq.Raft/src/raft_engine_log_store.rs:253-303 | the append after a truncation leaves exactly what was not cut and the new entries, on disk, in the log state and in reads |
| LogRefinement.OpenReadsFail | src/Blun.Mq.Raft/src/raft_engine_log_store.rs:135-139 | a range without an end reaches 2^64 - 1, and the engine refuses it for every shorter log |
| LogRefinement.OpenReadsIff | src/Blun.Mq.Raft/src/raft_engine_log_store.rs:135-139 | a range without an end is answered if and only if the stored log reaches index 2^64 - 2, and then with everything from its start |
| LogRefinement.LogStateIsExact | src/Blun.Mq.Raft/src/raft_engine_log_store.rs:162-191 | with no truncation pending the log state is the simple log's, a fully purged log and a lost compaction included |
| LogRefinement.StartupChecksPass | src/Blun.Mq.Raft/src/raft_engine_log_store.rs:214-251 | at every point, crashes included, the marker reads as set and is at or below the last log id, the committed id and the vote read as last saved, and the marker is at or below the committed id if and only if it is in the simple log |
| LogRefinement.CrashBringsBackStale | src/Blun.Mq.Raft/src/raft_engine_log_store.rs:296-303 | a crash keeps the simple log and adds at most the entries a pending truncation had cut |
| LogRefinement.PurgeIff | src/Blun.Mq.Raft/src/raft_engine_log_store.rs:305-322 | without any crash, a purge leaves the marker at or below the last log id if and only if it empties the disk or the last stored entry's id is not below it |
| LogRefinement.StalePurgeExample | src/Blun.Mq.Raft/src/raft_engine_log_store.rs:296-322 | three entries of an older leader, purged to a newer leader's index 1: the marker ends above the last log id |
| LogRefinement.TornPurgeIff | src/Blun.Mq.Raft/src/raft_engine_log_store.rs:305-322 | for any purge id and whatever part of the compaction a crash undoes: the marker is at or below the last log id if and only if no entry survived or the log reached the id |
| LogRefinement.AppendAfterTornPurgeIff | src/Blun.Mq.Raft/src/raft_engine_log_store.rs:305-322 | after such a crash the append behind the purged id is accepted if and only if no entry survived or the log contained that index |
| LogRefinement.TornPurgeExample | src/Blun.Mq.Raft/src/raft_engine_log_store.rs:305-322 | a one-entry log purged up to index 5 and crashed reports a last log id below its purge marker, and refuses entry 6 |
| LogSession.Call | src/Blun.Mq.Raft/src/raft_engine_log_store.rs:197-303 | on the objects: any allowed call leaves the disk where the refinement says |
| LogSession.CallPurge | src/Blun.Mq.Raft/src/raft_engine_log_store.rs:305-322 | on the objects: a purge of an entry in the log is its two refinement steps |
| LogSession.CallPurgePast | src/Blun.Mq.Raft/src/raft_engine_log_store.rs:305-322 | on the objects: a purge beyond the log's end restarts the simple log behind the purged id |
| LogSession.Restart | src/Blun.Mq.Raft/src/raft_engine_log_store.rs:162-244 | on the objects: after a crash the first reads return the marker, the last stored id and the committed id, the marker at or below the last id and, where it was saved so, the committed id |
| Recovery.RunKeeps | src/Blun.Mq.Host/src/main.rs:119-126 | across any number of crashes the committed prefix and the answers given only grow, and the state is the replay of the applied part |
| Recovery.CrashRecovery | src/Blun.Mq.Host/src/main.rs:119-126 | for every unpurged run and a crash at any point, reopening and applying up to the committed id into fresh state gives the replay of the committed prefix, which covers all that was applied |
| Recovery.ApplyAnswersEach | src/Blun.Mq.Raft/src/state_machine.rs:147-166 | applying answers each entry once, in order, with the response it has in the replay of the committed prefix |
| Recovery.AppliedIsAnswered | src/Blun.Mq.Raft/src/state_machine.rs:147-166 | in every run, whatever the node applied in its present life it has answered so |
| Recovery.RestartCatchesUp | src/Blun.Mq.Host/src/main.rs:119-126 | a crash forgets the state, and applying up to the committed id brings back what the rebuild gives |
| Recovery.AnsweredForgottenReplayed | src/Blun.Mq.Host/src/main.rs:119-126 | a run in which one publish is answered with offset 0, forgotten in a crash, applied again and answered the same |
| Recovery.AnsweredOffsetsSurvive | src/Blun.Mq.Raft/src/state_machine.rs:147-166 | the entry an answer was given for stays in the committed log through all later crashes, and an answered offset stays on that entry's payload |
| Recovery.RebuildIff | src/Blun.Mq.Raft/src/state_machine.rs:79-86 | with something committed, a restarted node can read what it must replay if and only if the disk holds entries from index 0 on |
| Recovery.UnsavedRebuildsNothing | src/Blun.Mq.Host/src/main.rs:119-126 | with no committed id saved a restarted node starts from empty state, whatever it held or had purged |
| Recovery.PurgedCannotRebuild | src/Blun.Mq.Host/src/main.rs:119-126 | a disciplined run that commits and purges one entry and then cannot rebuild |
| ConsumeStream.LocalConserves | src/Blun.Mq.Host/src/grpc.rs:146-203 | each event of a stream keeps the count of each message: inside, handed on, or lost |
| ConsumeStream.EnabledIff | src/Blun.Mq.Host/src/grpc.rs:156-201 | which step of its loop a worker can take in which phase: one that is not stopped always has one, a send needing room or a closed channel |
| ConsumeStream.StopsIff | src/Blun.Mq.Host/src/grpc.rs:192-198 | a worker stops if and only if its send met a closed channel or its process died |
| ConsumeStream.WorkerGoesOn | src/Blun.Mq.Host/src/grpc.rs:156-201 | a worker that got a message holds it; after an empty pop, an error, a redirect that came to nothing or a send it starts over, and only sends are recorded |
| ConsumeStream.OrderKept | src/Blun.Mq.Host/src/grpc.rs:155-201 | if messages come to a worker in rising order, it sends them in rising order |
| ConsumeStream.InFlightBound | src/Blun.Mq.Host/src/grpc.rs:146-203 | 32 workers with a message each and a channel of 128 are all that can be between the pops and the reader |
| Consume.AnswerIsOldest | src/Blun.Mq.Host/src/grpc.rs:157-163 | a committed pop answers the oldest message not popped before it |
| Consume.NextConserves | src/Blun.Mq.Host/src/grpc.rs:146-275 | every step of the protocol keeps: messages outside their queue are exactly the popped ones, each as often as popped |
| Delivery.OnePlaceEach | src/Blun.Mq.Host/src/grpc.rs:146-203 | in every reachable state each published message is in exactly one place: its queue, or once among workers, channels, wires, deliveries and losses |
| Delivery.NothingInvented | src/Blun.Mq.Host/src/grpc.rs:192-198 | whatever is outside the queues was published under its offset with its payload, and popped |
| Delivery.NoDuplicateDelivery | src/Blun.Mq.Host/src/grpc.rs:242-275 | no two deliveries to any clients carry the same offset of the same queue |
| Delivery.WorkerOrder | src/Blun.Mq.Host/src/grpc.rs:155-201 | the offsets each worker sends strictly increase in every run, popped locally or through forwards |
| Delivery.InFlightIsBounded | src/Blun.Mq.Host/src/grpc.rs:146-147 | over a stream's whole life, disconnects included, its workers obtain at most 160 messages more than are taken from its channel, those of failed responses aside |
| Delivery.LossIff | src/Blun.Mq.Host/src/grpc.rs:162-200 | a step loses a message if and only if it is a disconnect or process death that finds it inside the stream, a send of it to a closed channel, or a committed pop whose response is an error or has nobody waiting; nothing returns from the lost |
| Delivery.NothingLostIff | src/Blun.Mq.Host/src/grpc.rs:146-275 | a whole run loses nothing if and only if none of its steps has one of those causes |
| Delivery.UndisturbedStreamLosesNothing | src/Blun.Mq.Host/src/grpc.rs:146-203 | a stream that is not disconnected, whose process lives and whose pops get no error loses nothing, whatever all other streams do: what its workers obtained was taken from its channel, is in it, or in hand, and that is at most 160 |
| Delivery.CalmRunsLoseNothing | src/Blun.Mq.Host/src/grpc.rs:146-275 | where no stream is disturbed, nothing is lost anywhere, forwards and all |
| Progress.OpenStreamsKeepTheirWorkers | src/Blun.Mq.Host/src/grpc.rs:155-201 | in every run, as long as a stream is open none of its 32 workers has stopped |
| Progress.EmptyPopStartsOver | src/Blun.Mq.Host/src/grpc.rs:157-199 | from any state, a pop of an empty queue costs a log entry and leaves everything else as it was |
| Progress.PopReachesChannel | src/Blun.Mq.Host/src/grpc.rs:157-198 | from any state, one round of a ready worker takes the oldest message into a channel with room |
| Progress.ChannelReachesClient | src/Blun.Mq.Host/src/grpc.rs:205-207 | the oldest message of a client's channel comes to the client |
| Progress.ForwardBrings | src/Blun.Mq.Host/src/grpc.rs:242-275 | a forwarding worker takes one message off the other stream and leaves it open with no reader |
| Progress.GivingUpStartsOver | src/Blun.Mq.Host/src/grpc.rs:169-184 | a forward that times out or fails leaves its worker ready to propose again |
| Progress.ProposalsConserved | src/Blun.Mq.Host/src/grpc.rs:157-190 | pop proposals are made only by workers and go only by committing, waited for or not |
| Scenarios.PoppedAndLost | src/Blun.Mq.Host/src/grpc.rs:186-189 | a run in which the only message is popped, lost to an error response, and never delivered |
| Scenarios.DeliveredOutOfOrder | src/Blun.Mq.Host/src/grpc.rs:149-203 | a run in which two workers of one stream deliver the later message first |
| Scenarios.EmptyPopThenDelivery | src/Blun.Mq.Host/src/grpc.rs:156-201 | a run in which a worker pops an empty queue and then delivers what is published later |
| Scenarios.ForwardedDelivery | src/Blun.Mq.Host/src/grpc.rs:164-184 | a run in which a follower's worker brings a message over from the leader and the client gets it |
| Scenarios.LateCommitIsLost | src/Blun.Mq.Host/src/grpc.rs:186-189 | a run in which an errored proposal commits after all and its message is lost |
| Publish.AnswerIsTheLeaders | src/Blun.Mq.Host/src/grpc.rs:52-115 | through any number of hops an answered publish carries the response of the entry it committed, which always has an offset, so zero never stands in for a missing one |
| Publish.AnsweredIff | src/Blun.Mq.Host/src/grpc.rs:52-115 | a publish is answered if and only if the hops lead, each to a known leader it can dial, to a node that commits it, and each answer on the way back arrives |
| Publish.RefusedWith | src/Blun.Mq.Host/src/grpc.rs:52-68 | a publish that ends at a node which neither commits nor forwards fails with that node's error: no leader, unknown address, dial error, or failed write |
| Publish.LostAnswerWith | src/Blun.Mq.Host/src/grpc.rs:79-88 | a committed publish whose answer is lost fails with the error nearest to the leader |
| Publish.MissingOffsetIsZero | src/Blun.Mq.Host/src/grpc.rs:112-114 | a response without an offset would be told as zero |
| Publish.PopOutcome | src/Blun.Mq.Host/src/grpc.rs:89-94 | a proposed pop is answered by the node itself or refused, never forwarded |
| Publish.AcknowledgedPublish | src/Blun.Mq.Host/src/grpc.rs:101-115 | the offset told to the producer is the one under which the leader stored that payload at the end of the queue |
| Publish.AcknowledgedOffsetsDiffer | src/Blun.Mq.Host/src/grpc.rs:79-88 | two acknowledged publishes to one queue are told different offsets |
| Peers.ParsesToMeaning | src/Blun.Mq.Host/src/main.rs:23-36 | blank parts and white space around ids and addresses change nothing, `=` may occur in addresses, and the last of two equal ids wins |
| Peers.ParsesIff | src/Blun.Mq.Host/src/main.rs:23-36 | any text is accepted if and only if each part between commas is blank or has a 64-bit number before its first `=` |
| Peers.PartIff | src/Blun.Mq.Host/src/main.rs:27-34 | a part stands for the number before its first `=` and the trimmed text after it, or fails for want of the one or the other |
| Peers.ParseU64Iff | src/Blun.Mq.Host/src/main.rs:32 | an id is read as n if and only if it is n's decimal digits, with any zeros before and at most one plus |
| Peers.FirstBadPart | src/Blun.Mq.Host/src/main.rs:25-35 | the first bad part decides the failure: no `=`, or no number before it |
| Peers.SplitIsExact | src/Blun.Mq.Host/src/main.rs:24 | the parts hold no comma and join back to the text |
| Peers.PeersRoundTrip | src/aspire/Blun.Mq.AppHost/AppHost.cs:12 | a printed peer map, in any order of its ids, parses back to the same map for all 64-bit ids and all trimmed, comma-free addresses |

## Left out

- Raft consensus: elections, voting and commit rules are openraft's; the committed log and the call discipline are assumptions.
- raft-engine's files: segments, checksums and recovery are behind the contract stated above.
- JSON and protobuf text: documents are modelled by content. That a HashMap's order may differ between replicas is modelled.
- `consume` as a task: workers, channel and receiver are values that step functions update, one step per await point. Scheduling fairness, timing and back-off sleeps are not modelled, and a timeout is a step that may happen at any time; nothing is claimed about progress.
- Channel caches and connection set-up in `channel_for` and `pop_via_forward`: a failed dial is an error or a forward that ends.
- Publish.AcknowledgedOffsetsDiffer: takes as given that two calls commit two entries; a publish that failed at its caller may still have committed, and a retry then stores the payload twice.
- LogRefinement.RunRefines: a purge beyond the log's end is one step; not part of the run are such a purge while stale entries of a pending truncation reach beyond the purged index, and a crash that undoes its compaction before the next synced write. What these leave is the subject of the exact conditions PurgeIff, TornPurgeIff and AppendAfterTornPurgeIff.
- LogSession.CallPurgePast: the same two cases are left to those conditions.
- Recovery.CrashRecovery: nothing is purged and no snapshot is installed in the run; RebuildIff says exactly when purging breaks it.
- Replicas.StatusReadsArePrefixes: for installs of snapshots whose data matches their meta; with late-built ones that pass the honesty condition a replica's data may be ahead of its position.
- Errors of the disk itself and of blocking tasks.
- `applied_state`, `begin_receiving_snapshot` and `get_current_snapshot`: plain reads.
- Snapshot ids come from the clock and are an arbitrary string here.
- HTTP and gRPC status streams, node bootstrap and self-registration, the client crate, demos, and the web UI.
