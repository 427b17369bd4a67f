/** How a cluster state relates to the uncompacted protocol: each node's slice,
    disk and replication progress against its complete log, and each message
    against the history that justifies it. */
module RaftRefinement {
  import opened RaftTypes
  import opened RaftMessages
  import opened RaftLog
  import opened RaftHandlers
  import opened RaftCluster
  import C = Consensus
  import P = ConsensusProofs

  // ------------------------------------------------------------------ nodes

  ghost predicate StateRel(n: Node, s: C.Server) {
    && n.currentTerm == s.term
    && n.votedFor == s.vote
    && n.role == s.role
    && (n.role == Candidate ==> n.votesReceived == s.votes)
    && Represents(n.log, s.log)
    && Boundary(n.log) <= s.settled
    && n.commitIndex == s.commit
    && n.lastApplied <= n.commitIndex
  }

  function SavedState(d: Disk): PersistentState {
    if d.state.Some? then d.state.value else PersistentState(0, NOBODY, [])
  }

  function SnapshotIndex(d: Disk): nat {
    if d.snapshot.Some? then d.snapshot.value.index else 0
  }

  /** The disk holds the node's term, vote and every entry above its boundary. */
  ghost predicate DiskRel(n: Node, d: Disk)
    requires ValidNode(n)
  {
    && SavedState(d).term == n.currentTerm
    && SavedState(d).votedFor == n.votedFor
    && Above(SavedState(d).log, Boundary(n.log)) == n.log[1..]
    && (forall i :: 0 <= i < |SavedState(d).log| ==> SavedState(d).log[i].index > 0)
    && Boundary(n.log) <= SnapshotIndex(d)
  }

  /** A saved snapshot covers a prefix that is chosen by now. */
  ghost predicate SnapshotRel(h: C.State, s: C.Server, snapshot: Snapshot) {
    && snapshot.index > 0
    && C.Witnessed(h, snapshot.index, s.term)
    && h.chosen[snapshot.index - 1].term == snapshot.term
  }

  /** Server `p` has confirmed the first `k` entries of term `t`'s leader, or
      they are chosen anyway. */
  ghost predicate Confirms(h: C.State, p: NodeId, t: nat, k: nat) {
    C.Ack(h, p, t) >= k || C.Witnessed(h, k, t)
  }

  ghost predicate LeaderRel(n: Node, h: C.State, v: NodeId)
    requires v in h.servers
  {
    n.role == Leader ==>
      && C.Ack(h, v, n.currentTerm) >= |h.servers[v].log|
      && forall p :: p in n.peers ==>
           && p in n.nextIndex
           && 1 <= n.nextIndex[p] <= |h.servers[v].log| + 1
           && Confirms(h, p, n.currentTerm, Get(n.matchIndex, p))
  }

  ghost predicate NodeRel(n: Node, d: Disk, h: C.State, v: NodeId) {
    && v in h.servers
    && ValidNode(n)
    && n.id == v
    && PeersOf(n.peers, v, h.servers.Keys)
    && StateRel(n, h.servers[v])
    && DiskRel(n, d)
    && (d.snapshot.Some? ==> SnapshotRel(h, h.servers[v], d.snapshot.value))
    && LeaderRel(n, h, v)
  }

  /** The first file of a snapshot was written, the second was not, and the
      node restarted: its log starts with the snapshot, and what follows is
      left of a log that conflicts with it. In the protocol the server still
      has that log. */
  ghost predicate Torn(l: Slice, h: C.State, s: C.Server) {
    && |l| > 0
    && 0 < Boundary(l) < |s.log|
    && C.Witnessed(h, Boundary(l), s.term)
    && l[0].term == h.chosen[Boundary(l) - 1].term
    && l[1..] == s.log[Boundary(l)..]
    && !(h.chosen[..Boundary(l)] <= s.log)
  }

  ghost predicate TornRel(n: Node, d: Disk, h: C.State, v: NodeId) {
    && v in h.servers
    && ValidNode(n)
    && n.id == v
    && PeersOf(n.peers, v, h.servers.Keys)
    && var s := h.servers[v];
       && n.currentTerm == s.term
       && n.votedFor == s.vote
       && n.role == s.role != Leader
       && (n.role == Candidate ==> n.votesReceived == s.votes)
       && Torn(n.log, h, s)
       && s.commit <= n.commitIndex <= Boundary(n.log)
       && n.lastApplied <= n.commitIndex
       && DiskRel(n, d)
       && (d.snapshot.Some? ==> SnapshotRel(h, s, d.snapshot.value))
  }

  /** The node's log is a slice of the server's, or what is left of it. */
  ghost predicate Tied(n: Node, d: Disk, h: C.State, v: NodeId) {
    NodeRel(n, d, h, v) || TornRel(n, d, h, v)
  }

  // --------------------------------------------------------------- messages

  ghost predicate VoteRequestRel(h: C.State, src: NodeId, args: RequestVoteArgs) {
    && args.candidate == src
    && (src, args.term) in h.ballots
    && var b := h.ballots[(src, args.term)];
       b.candidate == src && args.lastIndex == |b.log| && args.lastTerm == C.LastTerm(b.log)
  }

  ghost predicate VoteReplyRel(h: C.State, voter: NodeId, candidate: NodeId, args: RequestVoteArgs,
                               reply: RequestVoteReply) {
    reply.granted ==>
      voter in h.servers && (voter, args.term) in h.ballots && h.ballots[(voter, args.term)].candidate == candidate
  }

  /** The entries are a piece of the log of the leader that sent them. */
  ghost predicate AppendRel(h: C.State, src: NodeId, args: AppendEntriesArgs) {
    && args.leader == src
    && args.term in h.reigns
    && h.reigns[args.term].leader == src
    && var log := h.reigns[args.term].log;
       && args.prevIndex + |args.entries| <= |log|
       && args.entries == log[args.prevIndex..args.prevIndex + |args.entries|]
       && args.prevTerm == FullTermAt(log, args.prevIndex)
       && args.leaderCommit <= |log|
       && C.Witnessed(h, args.leaderCommit, args.term)
  }

  ghost predicate InstallRel(h: C.State, src: NodeId, args: InstallSnapshotArgs, snapshot: Snapshot) {
    && args.chunked
    && args.leader == src
    && args.lastIndex == snapshot.index
    && args.lastTerm == snapshot.term
    && args.term in h.reigns
    && h.reigns[args.term].leader == src
    && 0 < args.lastIndex <= |h.reigns[args.term].log|
    && args.lastTerm == h.reigns[args.term].log[args.lastIndex - 1].term
    && C.Witnessed(h, args.lastIndex, args.term)
  }

  ghost predicate MessageRel(h: C.State, m: Message) {
    && m.src != m.dst
    && match m
       case VoteRequest(src, dst, args) => VoteRequestRel(h, src, args)
       case VoteReply(src, dst, args, reply) => VoteReplyRel(h, src, dst, args, reply)
       case AppendRequest(src, dst, args, _) => AppendRel(h, src, args)
       case AppendReply(src, dst, args, _, reply) =>
         && AppendRel(h, dst, args)
         && (reply.success ==> Confirms(h, src, args.term, args.prevIndex + |args.entries|))
       case SnapshotRequest(src, dst, args, snapshot) => InstallRel(h, src, args, snapshot)
       case SnapshotReply(src, dst, args, snapshot, reply) => InstallRel(h, dst, args, snapshot)
  }

  /** Every node and every message is justified by the history `h`. */
  ghost predicate Linked(c: Cluster, h: C.State) {
    && c.nodes.Keys == c.disks.Keys == h.servers.Keys
    && (forall v :: v in c.nodes ==> Tied(c.nodes[v], c.disks[v], h, v))
    && (forall m :: m in c.messages ==> m.src in h.servers && MessageRel(h, m))
  }

  ghost predicate Rel(c: Cluster, h: C.State) {
    C.Inv(h) && Linked(c, h)
  }

  // ----------------------------------------------------- what history keeps

  lemma MessageForward(h: C.State, h': C.State, m: Message)
    requires P.Grows(h, h') && MessageRel(h, m) && m.src in h.servers
    ensures MessageRel(h', m)
  {
    match m
    case VoteRequest(src, dst, args) =>
    case VoteReply(src, dst, args, reply) =>
    case AppendRequest(src, dst, args, _) =>
      AppendForward(h, h', src, args);
    case AppendReply(src, dst, args, _, reply) =>
      AppendForward(h, h', dst, args);
      if reply.success {
        ConfirmsForward(h, h', src, args.term, args.prevIndex + |args.entries|);
      }
    case SnapshotRequest(src, dst, args, snapshot) =>
      P.WitnessedForward(h, h', args.lastIndex, args.term, args.term);
    case SnapshotReply(src, dst, args, snapshot, reply) =>
      P.WitnessedForward(h, h', args.lastIndex, args.term, args.term);
  }

  lemma ConfirmsForward(h: C.State, h': C.State, p: NodeId, t: nat, k: nat)
    requires P.Grows(h, h') && Confirms(h, p, t, k) && p in h.servers
    ensures Confirms(h', p, t, k)
  {
    if C.Ack(h, p, t) < k {
      P.WitnessedForward(h, h', k, t, t);
    }
  }

  lemma AppendForward(h: C.State, h': C.State, src: NodeId, args: AppendEntriesArgs)
    requires P.Grows(h, h') && AppendRel(h, src, args)
    ensures AppendRel(h', src, args)
  {
    P.WitnessedForward(h, h', args.leaderCommit, args.term, args.term);
    var log, log' := h.reigns[args.term].log, h'.reigns[args.term].log;
    assert log'[args.prevIndex..args.prevIndex + |args.entries|]
           == log[args.prevIndex..args.prevIndex + |args.entries|];
  }

  lemma SnapshotForward(h: C.State, h': C.State, s: C.Server, snapshot: Snapshot)
    requires P.Grows(h, h') && SnapshotRel(h, s, snapshot)
    ensures SnapshotRel(h', s, snapshot)
  {
    P.WitnessedForward(h, h', snapshot.index, s.term, s.term);
    assert h'.chosen[..snapshot.index] == h.chosen[..snapshot.index];
  }

  /** What a leader knows about its peers stays true. */
  lemma LeaderForward(n: Node, h: C.State, h': C.State, v: NodeId)
    requires P.Grows(h, h') && v in h.servers && LeaderRel(n, h, v) && h'.servers[v].log == h.servers[v].log
    requires n.role == Leader ==> PeersOf(n.peers, v, h.servers.Keys)
    ensures LeaderRel(n, h', v)
  {
    hide Confirms;
    if n.role == Leader {
      forall p | p in n.peers
        ensures Confirms(h', p, n.currentTerm, Get(n.matchIndex, p))
      {
        ConfirmsForward(h, h', p, n.currentTerm, Get(n.matchIndex, p));
      }
    }
  }

  lemma NodeForward(n: Node, d: Disk, h: C.State, h': C.State, v: NodeId)
    requires P.Grows(h, h') && NodeRel(n, d, h, v) && h'.servers[v] == h.servers[v]
    ensures NodeRel(n, d, h', v)
  {
    hide SnapshotRel, LeaderRel, DiskRel, Represents;
    LeaderForward(n, h, h', v);
    if d.snapshot.Some? {
      SnapshotForward(h, h', h.servers[v], d.snapshot.value);
    }
  }

  lemma TornForward(l: Slice, h: C.State, h': C.State, s: C.Server, s': C.Server)
    requires P.Grows(h, h') && Torn(l, h, s) && s'.log == s.log && s'.term >= s.term
    ensures Torn(l, h', s')
  {
    P.WitnessedForward(h, h', Boundary(l), s.term, s'.term);
    assert h'.chosen[..Boundary(l)] == h.chosen[..Boundary(l)];
  }

  lemma TiedForward(n: Node, d: Disk, h: C.State, h': C.State, v: NodeId)
    requires P.Grows(h, h') && Tied(n, d, h, v) && h'.servers[v] == h.servers[v]
    ensures Tied(n, d, h', v)
  {
    hide NodeRel, SnapshotRel, DiskRel, Torn;
    if NodeRel(n, d, h, v) {
      NodeForward(n, d, h, h', v);
    } else {
      TornForward(n.log, h, h', h.servers[v], h'.servers[v]);
      if d.snapshot.Some? {
        SnapshotForward(h, h', h.servers[v], d.snapshot.value);
      }
    }
  }

  /** Only server `v` moved. */
  ghost predicate Elsewhere(h: C.State, h': C.State, v: NodeId) {
    h'.servers.Keys == h.servers.Keys && forall u :: u in h.servers && u != v ==> h'.servers[u] == h.servers[u]
  }

  lemma NodesForward(c: Cluster, c': Cluster, h: C.State, h': C.State, v: NodeId)
    requires Linked(c, h) && P.Grows(h, h') && Elsewhere(h, h', v) && v in c.nodes
    requires c'.nodes.Keys == c.nodes.Keys == c'.disks.Keys
    requires forall u :: u in c.nodes && u != v ==> c'.nodes[u] == c.nodes[u] && c'.disks[u] == c.disks[u]
    requires Tied(c'.nodes[v], c'.disks[v], h', v)
    ensures forall u :: u in c'.nodes ==> Tied(c'.nodes[u], c'.disks[u], h', u)
  {
    hide Tied;
    forall u | u in c'.nodes
      ensures Tied(c'.nodes[u], c'.disks[u], h', u)
    {
      if u != v {
        TiedForward(c.nodes[u], c.disks[u], h, h', u);
      }
    }
  }

  lemma MessagesForward(before: set<Message>, after: set<Message>, h: C.State, h': C.State)
    requires P.Grows(h, h')
    requires forall m :: m in before ==> m.src in h.servers && MessageRel(h, m)
    requires forall m :: m in after ==> m in before || (m.src in h.servers && MessageRel(h', m))
    ensures forall m :: m in after ==> m.src in h'.servers && MessageRel(h', m)
  {
    forall m | m in after
      ensures m.src in h'.servers && MessageRel(h', m)
    {
      if m in before {
        MessageForward(h, h', m);
      }
    }
  }
}
