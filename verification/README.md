# ForgeDB in Dafny

A model of ForgeDB, a replicated key-value store, and proofs of what it is for:
that its replicas never disagree, that nothing acknowledged is lost, and that
its storage structures mean what a plain map means.

The project follows the system from top to bottom.

* **Raft** (`RaftTypes`, `RaftMessages`, `RaftLog`, `RaftHandlers`, `RaftNode`,
  `RaftCluster`). `RaftHandlers` gives what a node does on each event as a
  function of its fields, its disk and the outcome of every save; `RaftNode` is
  the node as an object whose methods change those fields step by step, each
  proved equal to its handler. A cluster is a set of nodes and disks over a
  network that keeps every message ever sent, so that loss, repetition, delay and
  reordering need no rules of their own. Any save may fail and any node may
  restart at any moment.
* **Why Raft is safe** (`Consensus*`, `Raft*Sim`, `RaftSafety`, `RaftRuns`,
  `RaftReads`, `RaftLimits`, `RaftTornRun`). `Consensus` is the protocol on logs
  that are never compacted, in small steps and with a history of reigns, ballots
  and confirmations; its inductive invariant is kept by every step. Every handler
  is then shown to follow that protocol through the compacted log, its files and
  its messages, also at a node whose saved snapshot and log conflict because an
  installation lost its second save. The results are about whole runs.
* **Applying** (`RaftStreams`, `RaftData`, `RaftSystem`, `RaftSystemRuns`,
  `RaftSystemReads`, `KvApplier`, `Forge*`). The cluster with a state machine at
  every node, first for any state machine, then for the key-value store. Snapshots
  travel in chunks, and no run mixes those of two. A process that starts over
  finds what the log of its store holds, which may be an entry more than was ever
  applied, and no clients, and replays the Raft log.
* **State machine** (`KvCommands`, `KvMachine`, `KvRestart`, `SortedRows`,
  `KvSnapshots`, `KvStateMachine`): deduplication, restarts and snapshots.
* **Files of a node** (`RaftFormats`, `RaftFiles`): the bytes of the saved state
  and snapshot, and that a node always comes back from its own.
* **Storage** (`Cells`, `SkipLists`, `MemTables`, `WalRecords`, `Wal`,
  `MemStores`, `Sst*`, `Tables`, `Merging`, `Compaction`, `TableReads`): the linked
  skip list, the log and its recovery, tables on disk, and compaction.
* **Linearizability checker** (`Histories`, `CheckerSearch`, `CheckerInstances`,
  `CheckerLocality`, `Checker`, `CheckerLimits`), judged by the definition of
  Herlihy and Wing.

Where the code does not do what its documentation says, the model follows the
code. These properties are false of the code in general; each has an example and
the exact condition under which it holds:

* a read barrier without an entry of the leader's own term (`StaleRead`,
  `ReadBarrier`): the condition is sufficient in every cluster and exact in a
  cluster of one (`SoloReadExact`);
* an installed snapshot whose second save is lost: what the node comes back with
  (`TornReached`, `TornInstallExact`) and where its log ends (`EndMoves`,
  `ReopensOwnFiles`); the theorems about runs hold all the same;
* a snapshot that lies below what was applied (`LostCommand`, `RestoreExact`,
  `GuardExact`);
* a node that restarts without a snapshot and has not yet come as far as before
  (`LeftoverShows`, `LeftoversExact`): what it then holds, and what snapshots of it
  hold wherever they are restored, is `AppliedExactly`, `SavedExactly` and
  `ExactlyOnce`;
* a compaction that leaves out a newer table (`NewerLeftOut`, `CompactionExact`);
* a WAL append that fails half-way (`FailedAppendExact`);
* a state file that is saved and is too large to load (`SavedNotLoaded`,
  `StateRoundTrip`), and a bloom filter likewise (`OpensWhatWasLaid`);
* the checker's VALID (`ValidIsNotEnough`, `SaysValid`, `SoundExactly`) and, with
  more than 64 pending writes, its VIOLATION (`TooManyPending`, `SaysViolation`,
  `RefutesExactly`).

Premises. Names of nodes are not empty, peers are distinct, exclude the node and
are the same set everywhere. A save replaces a file as a whole or not at all. For
`ApplyRefinement` and what follows from it, no node is left with a snapshot below
what it has applied, and one run of the applier is one step.
Checksums and hashes are arbitrary functions, save and store failures, random
levels and filter sizes are parameters.

`dafny verify dfyconfig.toml` checks the whole project.

## Model

| member | source | states |
|---|---|---|
| `RaftRuns.OneHistory` | internal/raft/replication.go:229-250 | in every run there is one sequence of entries from which every node, in every state, draws all that it has committed or folded into a snapshot (state machine safety, section 5.4.3 of the Raft paper, in its strongest form) |
| `RaftRuns.StateMachineSafety` | internal/raft/replication.go:286-335 | two nodes never commit different entries at one index, in whatever states of the run they do so |
| `RaftRuns.LeaderCompleteness` | internal/raft/election.go:142-172 | an entry that a node has committed is in the log of every leader, from then on, of its term or a later one, or folded into that leader's snapshot |
| `RaftRuns.ElectionSafety` | internal/raft/election.go:22-94 | no term has two leaders in any two states of a run, with crashes, restarts and failed saves |
| `RaftRuns.OneVotePerTerm` | internal/raft/election.go:154-171 | no node is ever seen to have voted for two candidates in one term, across restarts and rolled-back saves |
| `RaftRuns.LogMatching` | internal/raft/replication.go:308-319 | two logs, in any two states, that agree on the term at an index agree on every earlier entry that both still hold |
| `RaftRuns.AppendNeverRemoves` | internal/raft/log.go:171-186 | delivering any AppendEntries of a leader, however late, repeated or reordered, keeps every entry that this leader's log has at some point of its reign |
| `RaftRuns.RestartRestores` | internal/raft/raft.go:324-368 | in every state a node's two files fit together, and loading them gives its term, its vote and, above the saved snapshot, exactly its log |
| `RaftRuns.RunTraced` | internal/raft/raft.go:155-260 | every run of the cluster is matched, state by state, by a run of the protocol without compaction whose history only grows |
| `RaftSafety.StepKeeps` | internal/raft/replication.go:172-217 | every event, with every outcome of its saves, keeps the cluster related to that protocol |
| `RaftReads.ReadBarrier` | internal/raft/read.go:67-149 | a read that succeeds returns an index at or above everything that any node had committed when it began, if nothing of an earlier term lies above the leader's commit index then; refusals count as acknowledgements, as in the code |
| `RaftLimits.OwnTermSuffices` | internal/raft/read.go:77-78 | a leader that has committed an entry of its own term meets that condition (section 8 of the Raft paper) |
| `RaftLimits.SoloReadExact` | internal/raft/read.go:67-104 | in a cluster of one, a read is up to date if and only if the condition holds |
| `RaftLimits.StaleRead` | internal/raft/read.go:77-104 | a run of five events in which a successful read returns index 0 after index 1 was committed: the condition cannot be dropped |
| `RaftLimits.TornInstallExact` | internal/raft/snapshot.go:358-398 | in every state of every run, a node at which an installation loses its second save comes back with the log of the whole installation if and only if its log did not conflict with the snapshot |
| `RaftTornRun.TornReached` | internal/raft/snapshot.go:358-398 | a run of sixteen events, for any commands and any payload of one chunk, in which it did conflict: the node comes back with an entry of term 1 above a boundary of term 2. The theorems about runs hold for such runs too |
| `ConsensusSteps.BumpTermKeeps` | internal/raft/raft.go:500-521 | a step to a later term keeps the inductive invariant: grounded logs, quorum-backed reigns, and every promise that may still be chosen |
| `ConsensusElections.StartElectionKeeps` | internal/raft/election.go:22-52 | a candidacy, which is also a ballot for oneself, keeps the invariant |
| `ConsensusElections.CastVoteKeeps` | internal/raft/election.go:154-171 | a vote for a candidate whose log is up to date keeps the invariant |
| `ConsensusSteps.CollectVoteKeeps` | internal/raft/election.go:82-93 | counting a granted vote keeps the invariant |
| `ConsensusElections.WinKeeps` | internal/raft/election.go:103-122 | a quorum of votes makes the first and only leader of a term, whose log has every entry that was or may still be chosen earlier |
| `ConsensusReplication.AppendKeeps` | internal/raft/replication.go:357-378 | a leader's own append keeps the invariant |
| `ConsensusReplication.SyncKeeps` | internal/raft/log.go:171-196 | taking over a prefix of the leader's log, which may cut off a conflicting suffix, keeps every confirmed promise |
| `ConsensusSteps.LearnKeeps` | internal/raft/replication.go:321-331 | raising a follower's commit index keeps the invariant |
| `ConsensusSteps.DecideKeeps` | internal/raft/replication.go:229-250 | the commit rule, a quorum of matches for an entry of the current term, extends the one chosen sequence |
| `ConsensusReplication.AdoptKeeps` | internal/raft/log.go:245-256 | taking over a chosen prefix from a snapshot keeps the invariant |
| `ConsensusSteps.RestartKeeps` | internal/raft/raft.go:324-368 | forgetting everything but term, vote and log keeps the invariant |
| `RaftElectionSim.StartElectionFollows` | internal/raft/election.go:22-52 | the handler's outcome, whether or not its save succeeds, follows the protocol, and every message it sends is justified by the history |
| `RaftElectionSim.VoteRequestFollows` | internal/raft/election.go:142-172 | granting or refusing a vote, with a term save and a vote save that may each fail, follows the protocol |
| `RaftElectionSim.VoteReplyFollows` | internal/raft/election.go:59-94 | handling a vote reply, up to becoming leader, follows the protocol |
| `RaftReplicationSim.AppendFollows` | internal/raft/replication.go:286-335 | handling AppendEntries on the compacted log, with a save that may fail, follows the protocol, and its reply is justified |
| `RaftReplicationSim.AppendReplyFollows` | internal/raft/replication.go:172-217 | handling a reply, also a stale one, follows the protocol |
| `RaftReplicationSim.ProposeFollows` | internal/raft/replication.go:357-378 | proposing a command, with a save that may fail, follows the protocol |
| `RaftReplicationSim.AppendIsOverlay` | internal/raft/log.go:171-186 | the code's append, which truncates at the first conflicting term, leaves the follower's own log if it has the entries and the leader's prefix otherwise |
| `RaftSimulation.CommittableChosen` | internal/raft/replication.go:229-250 | the index that the commit rule finds by counting matches is chosen in the protocol |
| `RaftSimulation.BroadcastFollows` | internal/raft/replication.go:24-64 | advancing the commit index and calling every peer follows the protocol |
| `RaftSnapshotSim.TakeSnapshotFollows` | internal/raft/snapshot.go:52-104 | compacting the log, with two saves that may each fail, follows the protocol |
| `RaftSnapshotSim.InstallSnapshotFollows` | internal/raft/snapshot.go:302-398 | receiving a chunk, up to installing a whole snapshot, follows the protocol |
| `RaftSnapshotSim.SnapshotReplyFollows` | internal/raft/replication.go:91-149 | handling a snapshot reply, up to sending the next chunk, follows the protocol |
| `RaftSnapshotSim.RestartFollows` | internal/raft/raft.go:324-368 | a restart from the two files follows the protocol, except that a log that conflicts with the saved snapshot keeps its part above it |
| `RaftTornSim.TornCannotWin` | internal/raft/election.go:82-94 | a node whose log conflicts with its snapshot cannot become leader |
| `RaftTornSim.TornAbove` | internal/raft/replication.go:308-319 | above the boundary of such a log no entry has the term of the leader's entry there, so that no AppendEntries of a leader is accepted on top of the stale part |
| `RaftTornSim.MendFollows` | internal/raft/log.go:171-186 | once its stale part is cut off, such a node follows the protocol again |
| `RaftTornSim.ElectionTrails` | internal/raft/election.go:22-52 | a timeout at any node, whether its log conflicts with its snapshot or not, keeps the cluster related to the protocol |
| `RaftTornSim.VoteRequestTrails` | internal/raft/election.go:142-172 | the same for a vote request |
| `RaftTornSim.AppendTrails` | internal/raft/replication.go:286-335 | the same for AppendEntries; a success still means that the protocol's server confirms all that the call carried or that it is committed |
| `RaftTornSim.InstallTrails` | internal/raft/snapshot.go:302-398 | the same for an installation, with both saves and the loss of either |
| `RaftLog.CompactionInvisible` | internal/raft/log.go:41-138 | the slice agrees with the complete log on last index and term, on every term from the boundary on, and on every entry, range and suffix above it |
| `RaftLog.CompactedRepresents` | internal/raft/log.go:210-222 | folding a prefix into the boundary leaves the complete log unchanged |
| `RaftLog.BoundaryRepresents` | internal/raft/log.go:245-256 | a boundary that the log holds changes nothing; any other leaves exactly the log it stands for |
| `RaftLog.AppendAfterRepresents` | internal/raft/log.go:171-196 | replication commutes with compaction |
| `RaftLog.Log.Append` | internal/raft/log.go:90-94 | the entry goes to the end under the next index |
| `RaftLog.Log.AppendFrom` | internal/raft/log.go:191-196 | the rest is appended with consecutive indexes |
| `RaftLog.Log.AppendEntriesAfter` | internal/raft/log.go:171-186 | the slice becomes the follower side of replication, and `changed` says whether any entry was new |
| `RaftLog.Log.Compact` | internal/raft/log.go:210-222 | compacts exactly when the index is held, under its own term |
| `RaftLog.Log.InstallSnapshotBoundary` | internal/raft/log.go:245-256 | keeps the suffix exactly when the term at the boundary matches |
| `RaftNode.Raft.Persist` | internal/raft/raft.go:387-394 | saves term, vote and the entries above the boundary, or nothing |
| `RaftNode.Raft.StepDown` | internal/raft/raft.go:500-521 | becomes a follower of the term, or is rolled back entirely when the save fails |
| `RaftNode.Raft.Elect` | internal/raft/election.go:22-52 | fields, disk and messages are those of the election handler that the cluster theorems are about |
| `RaftNode.Raft.ReceiveVote` | internal/raft/election.go:59-94 | the same for a vote reply |
| `RaftNode.Raft.Lead` | internal/raft/election.go:103-122 | the same for becoming leader |
| `RaftNode.Raft.Vote` | internal/raft/election.go:142-172 | the same for a vote request, with its reply |
| `RaftNode.Raft.BroadcastAppendEntries` | internal/raft/replication.go:24-64 | the same for a broadcast: the loop over peers sends exactly one call to each |
| `RaftNode.Raft.MaybeAdvanceCommitIndex` | internal/raft/replication.go:229-250 | the downward loop finds the highest committable index |
| `RaftNode.Raft.ReceiveAppendReply` | internal/raft/replication.go:172-217 | the same for an append reply |
| `RaftNode.Raft.ReceiveSnapshotReply` | internal/raft/replication.go:91-149 | the same for a snapshot reply |
| `RaftNode.Raft.AppendEntries` | internal/raft/replication.go:286-335 | the same for an append request, with its reply and rollback |
| `RaftNode.Raft.ProposeCommand` | internal/raft/replication.go:357-378 | the same for a proposal, with index and term |
| `RaftNode.Raft.BeginReadIndex` | internal/raft/read.go:67-114 | a leader, and only a leader, captures its commit index and calls every peer that an AppendEntries can reach |
| `RaftNode.Raft.FinishReadIndex` | internal/raft/read.go:116-149 | the read succeeds exactly when the node is alone, or still leads in the same term and was acknowledged by a quorum with itself; if the answers are those that the cluster has recorded, that is exactly when the cluster model lets the read succeed |
| `RaftNode.Raft.TakeSnapshotOf` | internal/raft/snapshot.go:52-104 | the same for a snapshot, with both saves and the rollback |
| `RaftNode.Raft.Receive` | internal/raft/snapshot.go:208-258 | the same for one chunk |
| `RaftNode.Raft.InstallSnapshot` | internal/raft/snapshot.go:302-398 | the same for an installation request, with its reply |
| `RaftNode.Raft.CommittedFrom` | internal/raft/replication.go:395-405 | the committed entries from an index on |
| `RaftNode.Raft.Mark` | internal/raft/apply.go:39-52 | advances `lastApplied` only forward and only to committed entries |
| `RaftNode.Raft.ConfirmRestored` | internal/raft/snapshot.go:145-162 | clears the pending snapshot only for its own index and only once that is committed |
| `RaftNode.Retain` | internal/raft/raft.go:347-353 | the loop keeps exactly the entries above the snapshot |
| `RaftNode.Open` | internal/raft/raft.go:324-372 | a node from its files, or none exactly when there is a gap between them |
| `RaftStreams.NeverMixed` | internal/raft/snapshot.go:208-258 | in every run, whatever the network loses, repeats and reorders and whichever leaders send: a chunk that a follower looks at leaves the beginning of the snapshot that it was cut from, and completes only the whole of it, although the code compares no more than index, term and size |
| `RaftStreams.StreamsKeep` | internal/raft/snapshot.go:323-353 | the invariant behind it, kept by every event: in one term one snapshot is sent for an index, and a chunk beyond the first is on its way only to a follower that holds all before it, has moved on in its term or has the snapshot |
| `RaftStreams.ReceivesPrefix` | internal/raft/snapshot.go:208-258 | a chunk that continues its own snapshot leaves a prefix of the payload, and only the whole payload completes a transfer |
| `RaftStreams.DeliveryIsOneStream` | internal/raft/snapshot.go:221-238 | under that invariant a chunk that is looked at continues a transfer of its own snapshot |
| `RaftData.FinalMeansInstalled` | internal/raft/replication.go:120-148 | a reply that acknowledges the last chunk means that the follower's boundary covers the snapshot |
| `RaftStreams.EventSends` | internal/raft/replication.go:91-149 | every chunk that is sent is the first of the snapshot that the leader holds, or the next of one that its receiver has acknowledged so far |
| `RaftData.LosslessDelivery` | internal/raft/replication.go:91-149 | a run without losses gives the receiver exactly the sender's data, whatever it was receiving before |
| `RaftSystemRuns.ApplyRefinement` | internal/statemachine/applier.go:85-113 | in every run and for every state machine whose snapshots restore what they saved and that catches up when it replays over leftovers: with nothing pending, each state machine is what the first `lastApplied` committed entries make of what earlier processes left, every snapshot on disk, in memory and on the wire is the encoding of such a state after the prefix that it names, and so is whatever is left of a store's log as long as its node has no snapshot |
| `RaftSystemRuns.AppliedExactly` | internal/statemachine/applier.go:85-113 | which leftovers these are, per node: those of its own processes, each as far as its store's log says, replaced by those of a snapshot that it restores. A node that has come as far as each of them is exactly the fold of the first `lastApplied` committed entries |
| `RaftSystemRuns.SavedExactly` | internal/statemachine/applier.go:164-184 | the same of every snapshot on disk, with the leftovers of the node that took it, whichever nodes it went through since |
| `RaftSystemRuns.NoLeftovers` | internal/dbnode/node.go:185-205 | a node that never restarted without a snapshot and never restored one has no leftovers, whatever other nodes do |
| `RaftSystemRuns.NoneAnywhere` | internal/dbnode/node.go:185-205 | without a restart of a node that has no snapshot, there are none anywhere |
| `RaftSystemRuns.ReplicasAgree` | internal/statemachine/applier.go:85-148 | replicas that are equally far, and as far as their own leftovers, are equal, whenever and however they got there |
| `RaftSystemReads.SystemBarrier` | internal/raft/read.go:67-149 | the read barrier holds in runs of the whole system, with appliers and snapshots at work |
| `RaftSystemReads.ConsistentRead` | internal/dbnode/node.go:315-365 | a node that has applied as far as a successful barrier serves the fold of a prefix of the committed entries that has every entry which any node had committed when the read began, if any leftovers of it that go further are older than the read; restarts of other nodes do not matter |
| `RaftSystem.RestoreExact` | internal/raft/snapshot.go:145-162 | restoring leaves the state machine where `lastApplied` then says it is if and only if the committed commands between the snapshot and what had been applied before change nothing; the state itself is the fold up to the snapshot |
| `ForgeRollback.LostCommand` | internal/raft/snapshot.go:323-384 | a run of the database in which a follower applies two commands, then restores a late snapshot of the first: the second command's key is gone and `lastApplied` is still two |
| `ForgeExact.GuardExact` | internal/raft/snapshot.go:145-162 | for the key-value store, restoring at an index after applying a number of entries is right for all committed commands if and only if the index is not below that number: the check that the code leaves out |
| `ForgeExact.LeftoversExact` | internal/storage/memstore.go:32-55 | for the key-value store, what a number of entries makes of the leftovers of earlier processes is what they make of nothing, whatever the committed commands are, if and only if none of those processes had come further |
| `ForgeRestarts.LeftoverShows` | internal/dbnode/node.go:185-205 | runs of the database in which a node restarts after two commands, the second applied or only logged by a write whose sync failed, and has applied the first again: its store, and the snapshot of index 1 that it saves, hold the second command's key, unlike the same node at the same `lastApplied` before |
| `RaftSystem.ApplierGood` | internal/statemachine/applier.go:85-148 | one run of the applier, stopped by a fault at any point, keeps the relation to the committed entries |
| `ForgeDb.KvIsFaithful` | internal/statemachine/snapshot.go:135-300 | the key-value store is such a state machine: every state that any lifetimes of the process can lead to is restored from a snapshot that was small enough to be saved, and replaying all commands over leftovers ends where applying them once does |
| `ForgeDb.ExactlyOnce` | internal/statemachine/applier.go:93-110 | the database as a whole, in every state of every run and with restarts that keep the store and forget the clients: every replica's table of clients is that of the first `lastApplied` committed entries, every key that an executed command among them touches is what executing each client's requests once, in the order of their ids, leads to, any other key was written by an earlier process, and from the furthest restart on there is no other |
| `KvApplier.Applier.ApplyAvailable` | internal/statemachine/applier.go:85-113 | the loop does what the system model's applier does, for every store fault; it reports an error exactly when something is left, and then the next entry is no command or met the fault. The store's log then leads to what the system model records: what was applied or, after a failed sync, one entry more |
| `KvApplier.Applier.ApplyCommitted` | internal/statemachine/applier.go:93-112 | applies entries in order and stops exactly before the first that is no command or meets a fault |
| `KvApplier.Applier.ApplyEntry` | internal/statemachine/applier.go:97-110 | one entry: decoded, applied and then marked, or nothing of it |
| `KvApplier.Applier.RestorePendingSnapshot` | internal/statemachine/applier.go:131-148 | restores and then confirms; an interrupted restore leaves the snapshot pending |
| `KvApplier.Applier.CreateSnapshot` | internal/statemachine/applier.go:164-184 | saves the snapshot of the exact current state, only for the current `lastApplied` and only if it is not over the limit of 256 MiB |
| `RaftFormats.StateRoundTrip` | internal/raft/format.go:112-219 | a saved state is loaded as it was if its file is at most 1 GiB, and refused otherwise |
| `RaftFormats.SavedNotLoaded` | internal/raft/format.go:56-115 | 1024 entries of a mebibyte each are saved and cannot be loaded: saving has no limit on the whole file |
| `RaftFormats.SnapshotRoundTrip` | internal/raft/format.go:257-338 | every snapshot that can be saved is loaded as it was |
| `RaftFormats.WriteState` | internal/raft/format.go:56-104 | the loop over the entries writes the format, or refuses exactly what is over a limit |
| `RaftFormats.LoadEntries` | internal/raft/format.go:163-208 | the loop reads all entries or gives up: exactly when one is cut off, too large, out of order, or decreases the term |
| `RaftFormats.LoadState` | internal/raft/format.go:112-219 | the decoder as a whole |
| `RaftFiles.ReopensOwnFiles` | internal/raft/snapshot.go:77-99 | after any run, with any saves failed and a crash between any two, a node opens from its own bytes if and only if the state file is not over the limit, with the same term, vote and entries above the saved snapshot; last index and last term are the same if and only if the log reaches beyond the snapshot or holds it, which it does unless an installation there has lost its second save |
| `RaftFiles.RunFits` | internal/raft/snapshot.go:77-99 | in every state of every run the log holds the position of the saved snapshot, unless an installation at this node has lost its second save since it last started |
| `RaftTornRun.EndMoves` | internal/raft/snapshot.go:358-398 | a run in which one has, for any commands and any payload of one chunk: the node's log ends at 0 and the log of its files at 1 |
| `RaftFiles.ActSaves` | internal/raft/raft.go:387-394 | whatever happens at a node, its state file is left alone or brought up to date with the node |
| `RaftFiles.LogsWellFormed` | internal/raft/log.go:29-37 | no log has a gap, in any state of any run |
| `KvCommands.CommandRoundTrip` | internal/statemachine/command.go:113-204 | decoding an encoded command gives it back |
| `KvMachine.RetryInvisible` | internal/statemachine/statemachine.go:106-153 | repeating a command anywhere after its first occurrence changes neither the keys nor the table of clients |
| `KvMachine.RetriesInvisible` | internal/statemachine/statemachine.go:106-153 | the same for any number of repeats of any commands |
| `KvMachine.ExecutedIncrease` | internal/statemachine/statemachine.go:106-153 | a client's executed requests have strictly increasing ids |
| `KvRestart.RestartConverges` | internal/statemachine/statemachine.go:97-153 | replaying all committed commands with an empty table of clients over the leftovers of any earlier partial replays ends where applying them once to an empty store ends |
| `KvRestart.StoreApart` | internal/statemachine/statemachine.go:106-184 | which requests are executed does not depend on the store |
| `KvStateMachine.KVStateMachine.ApplyCommand` | internal/statemachine/statemachine.go:106-153 | the state and the answer are those of the deduplicating machine; a store fault changes nothing in memory, and the log has the record exactly if it was appended |
| `KvStateMachine.KVStateMachine.Execute` | internal/statemachine/statemachine.go:161-184 | puts or deletes in the log and then in memory, or refuses the empty key; a write that is refused is in neither, one that cannot be synced is in the log only |
| `KvStateMachine.KVStateMachine.CreateSnapshot` | internal/statemachine/snapshot.go:135-251 | gives the snapshot of the state, with both tables in key order, exactly when everything is within the limits |
| `KvStateMachine.KVStateMachine.RestoreSnapshot` | internal/statemachine/snapshot.go:268-300 | puts the decoded state in place of this one; damaged bytes change nothing, and a fault on the way leaves the table of clients |
| `KvStateMachine.SnapshotDecodes` | internal/statemachine/snapshot.go:308-450 | the snapshot of a state decodes to that state if and only if it is at most 512 MiB |
| `KvStateMachine.CopyState` | internal/statemachine/snapshot.go:135-300 | a snapshot of one machine restored into any other, whatever interrupted restores left there, makes the two equal, exactly when it can be taken and is not over the limit |
| `KvStateMachine.DecodeSnapshot` | internal/statemachine/snapshot.go:308-450 | the decoding loops compute the specified decoder |
| `KvSnapshots.SnapshotUnique` | internal/statemachine/snapshot.go:135-178 | a state has one snapshot, whatever order its tables are visited in |
| `KvSnapshots.RowsRoundTrip` | internal/statemachine/snapshot.go:180-251 | encoded rows are decoded as they were, unless the whole is over the limit |
| `SkipLists.SkipList.Advance` | internal/storage/memtable/skiplist.go:54-66 | moving along one lane stops at its last node before the key |
| `SkipLists.SkipList.Search` | internal/storage/memtable/skiplist.go:54-66 | finds the key's node if and only if the list has the key |
| `SkipLists.SkipList.FindUpdates` | internal/storage/memtable/skiplist.go:80-92 | gives, for every lane, its last node before the key |
| `SkipLists.SkipList.Splice` | internal/storage/memtable/skiplist.go:100-110 | rewires exactly the links around the new node in its lanes |
| `SkipLists.SkipList.Link` | internal/storage/memtable/skiplist.go:94-110 | afterwards every lane is again a strictly sorted sublist of the lowest one |
| `SkipLists.SkipList.Insert` | internal/storage/memtable/skiplist.go:94-110 | the cells become those with the new one in its place |
| `SkipLists.SkipList.Upsert` | internal/storage/memtable/skiplist.go:80-111 | for every level drawn, the list keeps its shape and its cells become the old ones with the key's replaced or inserted |
| `MemTables.MemTable.Put` | internal/storage/memtable/memtable.go:49-70 | the live map with the key set; the empty key is refused |
| `MemTables.MemTable.Delete` | internal/storage/memtable/memtable.go:93-107 | the live map without the key |
| `MemTables.MemTable.Get` | internal/storage/memtable/memtable.go:76-88 | what the live map has under the key |
| `MemTables.MemTable.Len` | internal/storage/memtable/memtable.go:113-117 | the incrementally kept count is the size of the live map |
| `MemTables.MemTable.ByteSize` | internal/storage/memtable/memtable.go:121-125 | the incrementally kept size is the sum of the live keys' and values' lengths |
| `MemTables.MemTable.All` | internal/storage/memtable/memtable.go:138-153 | every live key once, with its value, in key order |
| `MemTables.EntriesAreContents` | internal/storage/memtable/memtable.go:138-153 | the listed entries are the live map |
| `Merging.PopAndAdvance` | internal/storage/compaction/merge.go:62-89 | taking an item and pushing its table's next keeps the heap at one item per unfinished table |
| `Merging.TakeKey` | internal/storage/compaction/merge.go:76-91 | the inner loop reads every entry with the least key and keeps the one of the newest table |
| `Merging.MergeTables` | internal/storage/compaction/merge.go:54-98 | strictly increasing, and for every key the newest entry, without tombstones if those are dropped, whatever order the heap gives equal keys in |
| `Compaction.MayDropTombstones` | internal/storage/compaction/compaction.go:107-127 | says yes exactly when no older table is left out |
| `Compaction.Compact` | internal/storage/compaction/compaction.go:79-198 | publishes the merge of exactly the inputs under the newest id, and only if reading the new file gave back that merge; with no inputs, a duplicate, a table that is not active or not readable, an output that is not the merge or a save that fails, the tables stay as they were |
| `Compaction.CompactionPreserves` | internal/storage/compaction/compaction.go:107-190 | if every table left out is older than every input, no reader can tell the difference, with dropped tombstones and with an empty output |
| `Compaction.CompactionExact` | internal/storage/manifest/version.go:170-188 | leaving out only older tables is exactly what makes compacting these ids safe for all contents of non-empty tables |
| `Compaction.NewerLeftOut` | internal/storage/manifest/version.go:179-181 | for every choice that leaves out a newer table, non-empty tables for which a read changes |
| `Compaction.NewestSplit` | internal/storage/manifest/version.go:95-102 | asking newer tables first is asking all of them |
| `TableReads.Lookup` | internal/storage/sstable/reader.go:101-132 | asking the opened readers of all active tables, newest first, gives what the newest table with the key says |
| `TableReads.ReadAcross` | internal/storage/compaction/compaction.go:79-198 | through the opened files of the tables before and after such a compaction, every lookup gives the same |
| `Compaction.VersionSet.AddTable` | internal/storage/manifest/version.go:109-124 | a new id, never used before; a failed save leaves everything |
| `Compaction.VersionSet.RemoveTables` | internal/storage/manifest/version.go:142-156 | removes exactly these; a failed save leaves everything |
| `Compaction.VersionSet.ReplaceTables` | internal/storage/manifest/version.go:170-188 | replaces exactly these by one under a new id; a failed save leaves everything |
| `SstBlocks.Encode` | internal/storage/sstable/block.go:34-75 | writes the block format, or refuses exactly an entry over a limit |
| `SstBlocks.Decode` | internal/storage/sstable/block.go:80-130 | computes the specified decoder |
| `SstBlocks.BlockRoundTrip` | internal/storage/sstable/block.go:34-130 | decoding a block gives back its entries |
| `SstBlocks.SearchEntries` | internal/storage/sstable/block.go:134-148 | binary search finds what a search from the front finds |
| `SstBloom.BloomFilter.Add` | internal/storage/sstable/bloom.go:89-95 | the filter has the key and whatever it had before |
| `SstBloom.BloomFilter.MightContain` | internal/storage/sstable/bloom.go:100-109 | answers whether all of the key's bits are set, so that no added key is ever denied |
| `SstBloom.BloomRoundTrip` | internal/storage/sstable/bloom.go:119-162 | decoding an encoded filter gives it back if and only if it has at most 2^34 bits, a limit that the writer does not have |
| `SstFormat.IndexRoundTrip` | internal/storage/sstable/index.go:30-88 | decoding an encoded index gives it back |
| `SstFormat.ReadIndex` | internal/storage/sstable/index.go:55-88 | the loop computes the specified decoder |
| `SstFormat.MetaRoundTrip` | internal/storage/sstable/meta.go:20-95 | decoding encoded metadata gives it back |
| `SstFormat.FooterRoundTrip` | internal/storage/sstable/footer.go:37-92 | decoding an encoded footer whose sections lie in the file gives it back |
| `SstFiles.OpensWhatWasLaid` | internal/storage/sstable/reader.go:37-80 | a file that the writer lays out opens if and only if its filter has at most 2^34 bits, and gives back index, filter and metadata |
| `SstWriter.Writer.Add` | internal/storage/sstable/writer.go:47-65 | takes exactly the keys that are not empty and larger than the last |
| `SstWriter.PackBlocks` | internal/storage/sstable/writer.go:82-118 | the blocks, one after the other, hold the entries in order, and the index says where each lies |
| `SstWriter.Writer.Build` | internal/storage/sstable/writer.go:77-152 | the file of a layout of the entries, exactly when there are some and each can be stored |
| `SstReader.Reader.CandidateBlock` | internal/storage/sstable/reader.go:137-148 | the last block that starts at or before the key |
| `SstReader.Reader.Get` | internal/storage/sstable/reader.go:101-132 | found, deleted or absent exactly as a linear search through the entries says |
| `SstReader.Open` | internal/storage/sstable/reader.go:37-80 | opens exactly the files whose parts check out |
| `SstReader.Iterator.Next` | internal/storage/sstable/iterator.go:36-64 | gives the next entry, across blocks, until there are no more |
| `SstReader.Scan` | internal/storage/sstable/iterator.go:25-70 | a scan gives exactly the entries, in order |
| `SstRoundTrip.BuildAndOpen` | internal/storage/sstable/writer.go:77-152 | what was built opens if and only if its filter has at most 2^34 bits, and serves exactly the entries that were added |
| `WalRecords.ParsesCutRecord` | internal/storage/wal/wal.go:126-160 | a record cut off anywhere is torn, never corrupt and never another record |
| `WalRecords.ReplayCut` | internal/storage/wal/wal.go:102-173 | a file cut off anywhere replays to the records that are whole, and ends where the last of them ends |
| `WalRecords.Encode` | internal/storage/wal/record.go:70-95 | writes the record format, or refuses exactly what is over a limit |
| `Wal.Log.Replay` | internal/storage/wal/wal.go:102-183 | hands out the whole records, cuts off a torn tail and leaves the position at the end; a corrupt file is left as it is |
| `Wal.Log.Append` | internal/storage/wal/wal.go:197-212 | the record at the end of the file, or as much of it as a failed write leaves |
| `Wal.Log.Sync` | internal/storage/wal/wal.go:219-229 | everything written so far is durable, or nothing more than before |
| `Wal.CrashRecovers` | internal/storage/wal/wal.go:102-183 | after a crash that keeps any bytes beyond the synced ones, and if no append had failed, the replay succeeds, ends on a record boundary and gives a prefix that has every synced record |
| `Wal.CrashKeepsSynced` | internal/storage/wal/wal.go:102-183 | after any crash the records found have every synced one, whatever failed appends have left behind them |
| `Wal.SyncedSurvives` | internal/storage/wal/wal.go:102-212 | over any run of appends, appends that fail after any number of bytes, syncs and crashes, no record that was synced, and was not behind the bytes of a failed append, is lost |
| `Wal.FailedAppendExact` | internal/storage/wal/wal.go:197-212 | a failed append is harmless if and only if it left no bytes behind: otherwise some record appended and synced later is not found again |
| `MemStores.MemStore.Recover` | internal/storage/memstore.go:32-55 | memory becomes the fold of the records that the log gives, unless the log is corrupt |
| `MemStores.MemStore.Write` | internal/storage/memstore.go:62-77 | memory changes only after the record is logged and synced |
| `MemStores.MemStore.Put` | internal/storage/memstore.go:62-77 | sets the key, or changes nothing in memory |
| `MemStores.MemStore.Delete` | internal/storage/memstore.go:95-110 | removes the key, or changes nothing in memory |
| `MemStores.Reopen` | internal/storage/memstore.go:32-55 | whatever a crash leaves beyond what was synced, a store that opens is the fold of the records found, which have every synced one; it opens, with a prefix of the records, if no append had failed |
| `Histories.Validate` | correctness/operation.go:180-224 | accepts exactly the well-formed histories |
| `Histories.Model.Apply` | correctness/model.go:53-67 | the reference model's step, updated in place |
| `Histories.Model.Clone` | correctness/model.go:37-43 | an independent copy |
| `CheckerInstances.NewInstance` | correctness/checker.go:194-217 | the predecessors of an operation are exactly the completed operations that were over before it began |
| `CheckerSearch.Searcher.IsReady` | correctness/checker.go:299-309 | an operation is ready exactly when it is unplaced and all its predecessors are placed |
| `CheckerSearch.Searcher.Search` | correctness/checker.go:250-289 | the backtracking search: a failure within the budget means that every extension was tried and some operation was never placed; it takes at most n * (1 + (n - 1) * (1 + ...)) states for n unplaced operations, and one for each where none can be placed |
| `CheckerSearch.Searcher.Try` | correctness/checker.go:256-287 | one turn of its loop |
| `CheckerInstances.Run` | correctness/checker.go:223-240 | within the budget the search says VALID exactly when every operation occurs in some partial linearization |
| `CheckerInstances.LinearizableCovered` | correctness/checker.go:250-289 | no linearization is ever missed |
| `CheckerInstances.FullIsLinearization` | correctness/checker.go:250-289 | a partial linearization that has every operation is a linearization in the sense of Herlihy and Wing |
| `Checker.OptionalSubsets` | correctness/checker.go:144-157 | all masks up to 12 pending writes; beyond, no bits and all bits that a mask has |
| `Checker.EveryChoice` | correctness/checker.go:144-157 | the masks reach every choice of pending writes |
| `Checker.AllExplainsMost` | correctness/checker.go:53-78 | if any choice of pending writes explains a history, including all of them does |
| `CheckerLocality.Local` | correctness/checker.go:53-78 | locality: orders of the single keys that respect time and explain their operations give one order of all operations that does |
| `CheckerLocality.CoveredIsLinearizable` | correctness/checker.go:250-252 | with at most one completed read of each key, a set of operations each of which occurs in some partial linearization is linearizable |
| `Checker.Check` | correctness/checker.go:79-136 | VIOLATION means that no choice of pending writes and no order explains the history, for up to 64 of them; for up to 12, VALID and VIOLATION together say exactly whether some choice leaves every operation in some partial linearization; VALID means linearizable if no key has two completed reads, or if the order is full; a budget that covers all searches is never used up, and otherwise it gives up only after its budget |
| `CheckerLimits.ValidIsNotEnough` | correctness/checker.go:250-252 | a history, with two reads of one key, in which every operation occurs in some partial linearization and that is not linearizable |
| `CheckerLimits.SaysValid` | correctness/checker.go:79-136 | the checker, with its default budget, says VALID of it |
| `CheckerLimits.SoundExactly` | correctness/checker.go:250-252 | VALID is right for all histories with at most n completed reads of any key if and only if n is at most one |
| `CheckerLimits.TooManyPending` | correctness/checker.go:148-149 | for every number of pending writes above 64, a linearizable history that both masks reject within 130 states |
| `CheckerLimits.SaysViolation` | correctness/checker.go:79-136 | the checker, with its default budget, says VIOLATION of it |
| `CheckerLimits.RefutesExactly` | correctness/checker.go:139-161 | VIOLATION is right for all histories with k pending writes if and only if k is at most 64 |

## Left out

- Transport, HTTP API, gateway, dashboard, configuration, metrics and logging: plumbing around the modelled components.
- Test drivers of the checker (recording, random histories, replay, reports, reducer) and the checker's description of its best failure.
- Liveness and timing: ticks and randomized timeouts become a timeout that is always possible.
- Sizes of the bloom filter are taken as given; the floating-point formula that computes them is not modelled.
- File-system calls: file names, directories, renames and the file tracker that delays deletions; a save is atomic.
- Indexes, terms and request ids are unbounded in the Raft and state-machine modules; the 64-bit width appears only in the file formats, and wrap-around of an index above 2^64 is not modelled.
- `container/heap` is modelled by taking any item with a smallest key; the heap's shape in its slice is not.
- Output buffers with a moving offset are modelled as sequences that grow.
- Locks and goroutines: each handler, and each run of the applier, is one step.
- RaftSystemReads.ConsistentRead: a reader that holds leftovers of a process which had come further than the reader now is, and which was not recorded before the read began, is excluded; it may serve keys of later committed commands.
- ForgeDb.ExactlyOnce: a committed entry whose bytes are no command would leave the state unchanged; the real applier stops before it, which is KvApplier.Applier.ApplyCommitted.
- RaftReads.ReadBarrier: its condition is necessary as well only in a cluster of one (RaftLimits.SoloReadExact); in a larger cluster a read without it may still be up to date by chance.
- RaftFiles.ReopensOwnFiles: about states whose numbers and fields are within what can be saved at all; a save that is refused is a failed save.
- Wal.Log.Replay: an error of the callback that takes the records is not modelled, because applying a logged record never fails (MemStores.MemStore.ApplyRecord).
- SstReader.Reader.Get: says what a lookup finds only in a file that the writer laid out; for other files it says only that the empty key is refused.
- Manifest encoding: the version set is saved as a value, not as bytes.
