/** What Raft nodes send each other and what they keep on disk. */
module RaftMessages {
  import opened Options
  import opened RaftTypes

  datatype RequestVoteArgs = RequestVoteArgs(term: nat, candidate: NodeId, lastIndex: nat, lastTerm: nat)
  datatype RequestVoteReply = RequestVoteReply(term: nat, granted: bool)

  datatype AppendEntriesArgs = AppendEntriesArgs(
    term: nat, leader: NodeId, prevIndex: nat, prevTerm: nat, entries: seq<Entry>, leaderCommit: nat)
  datatype AppendEntriesReply = AppendEntriesReply(term: nat, success: bool)

  datatype InstallSnapshotArgs = InstallSnapshotArgs(
    term: nat, leader: NodeId, lastIndex: nat, lastTerm: nat, data: Bytes,
    chunked: bool, offset: nat, final: bool, total: nat, checksum: nat)
  datatype InstallSnapshotReply = InstallSnapshotReply(term: nat, success: bool)

  datatype Snapshot = Snapshot(index: nat, term: nat, data: Bytes)

  datatype PersistentState = PersistentState(term: nat, votedFor: NodeId, log: seq<Entry>)

  /** The two files of a node: each is replaced as a whole or not at all. */
  datatype Disk = Disk(state: Option<PersistentState>, snapshot: Option<Snapshot>)

  /** A snapshot being received in chunks; `buf` is what has arrived, in order. */
  datatype Transfer = Transfer(index: nat, term: nat, total: nat, buf: Bytes)

  /** A call from `src` to `dst`, or the answer to one, which travels with the
      call it answers. `read` is the read barrier that made the call (0 for
      none), and `snapshot` the snapshot whose chunks the caller is sending:
      both are known to the caller only. */
  datatype Message =
    | VoteRequest(src: NodeId, dst: NodeId, vote: RequestVoteArgs)
    | VoteReply(src: NodeId, dst: NodeId, vote: RequestVoteArgs, voted: RequestVoteReply)
    | AppendRequest(src: NodeId, dst: NodeId, append: AppendEntriesArgs, read: nat)
    | AppendReply(src: NodeId, dst: NodeId, append: AppendEntriesArgs, read: nat, appended: AppendEntriesReply)
    | SnapshotRequest(src: NodeId, dst: NodeId, install: InstallSnapshotArgs, snapshot: Snapshot)
    | SnapshotReply(src: NodeId, dst: NodeId, install: InstallSnapshotArgs, snapshot: Snapshot,
                    installed: InstallSnapshotReply)
}
