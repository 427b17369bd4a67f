/** The values the Raft module passes around: log entries, roles and the two
    comparisons on them that every other Raft module shares. */
module RaftTypes {
  import B = ByteStrings

  /** A node's name. The empty name stands for "no vote" and "no leader". */
  type NodeId = string

  const NOBODY: NodeId := ""

  type Byte = B.Byte
  type Bytes = B.Bytes

  datatype Entry = Entry(index: nat, term: nat, command: Bytes)

  datatype Role = Follower | Candidate | Leader

  /** A candidate's last log position is at least as up to date as a voter's:
      the later term wins, and the longer log wins between equal terms. */
  predicate LogIsUpToDate(candidateIndex: nat, candidateTerm: nat, voterIndex: nat, voterTerm: nat) {
    if candidateTerm != voterTerm then candidateTerm > voterTerm else candidateIndex >= voterIndex
  }

  /** The number of nodes that form a quorum of `total`. */
  function Majority(total: nat): nat {
    total / 2 + 1
  }
}
