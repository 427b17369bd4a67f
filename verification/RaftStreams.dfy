/** Snapshots in chunks: whatever is lost, repeated or reordered, a follower
    only ever puts together chunks of one snapshot. The code compares no more
    than index, term and size; that this is enough is a property of runs. */
module RaftStreams {
  import opened Options
  import opened RaftTypes
  import opened RaftMessages
  import opened RaftLog
  import opened RaftHandlers
  import opened RaftCluster
  import R = RaftRefinement
  import opened RaftSimulation
  import opened RaftSafety
  import RaftRuns
  import C = Consensus
  import P = ConsensusProofs

  /** The events that the applier alone causes. */
  predicate AppliersOwn(e: Event) {
    e.Applied? || e.Restored? || e.TakeSnapshot?
  }

  // --------------------------------------------- events that move no payload

  /** Nothing that concerns snapshots and applying has changed. */
  predicate SameData(n: Node, d: Disk, n': Node, d': Disk) {
    && ValidNode(n) && ValidNode(n')
    && n'.log[0] == n.log[0]
    && n'.lastApplied == n.lastApplied
    && n'.snapshotData == n.snapshotData
    && n'.pendingSnapshot == n.pendingSnapshot
    && n'.chunkTransfer == n.chunkTransfer
    && d'.snapshot == d.snapshot
  }

  predicate Plain(e: Event) {
    !AppliersOwn(e) && !e.DeliverSnapshot? && !e.Restart?
  }

  lemma AppendKeepsFirst(l: Slice, prev: nat, entries: seq<Entry>)
    requires |l| > 0 && l[0].index <= prev <= LastIndex(l)
    ensures |AppendAfter(l, prev, entries)| > 0 && AppendAfter(l, prev, entries)[0] == l[0]
  {
  }

  lemma AppendSameData(n: Node, d: Disk, args: AppendEntriesArgs, saveTerm: bool, saveLog: bool)
    requires ValidNode(n)
    ensures var (n', d', _) := HandleAppendEntries(n, d, args, saveTerm, saveLog); SameData(n, d, n', d')
  {
    hide AppendAfter, Matching;
    if TermAt(n.log, args.prevIndex).Some? {
      AppendKeepsFirst(n.log, args.prevIndex, args.entries);
    }
  }

  lemma VoteSameData(n: Node, d: Disk, args: RequestVoteArgs, saveTerm: bool, saveVote: bool)
    requires ValidNode(n)
    ensures var (n', d', _) := HandleRequestVote(n, d, args, saveTerm, saveVote); SameData(n, d, n', d')
  {
  }

  lemma LeadSameData(n: Node, d: Disk, config: Config)
    requires ValidNode(n)
    ensures var out := BecomeLeader(n, d, config); SameData(n, d, out.node, out.disk)
    ensures var out := Broadcast(n, d, config); SameData(n, d, out.node, out.disk)
  {
    hide HighestCommittable, PeerCall, Assigned;
  }

  lemma ElectionSameData(n: Node, d: Disk, config: Config, save: bool)
    requires ValidNode(n)
    ensures var out := StartElection(n, d, config, save); SameData(n, d, out.node, out.disk)
  {
    hide BecomeLeader, VoteCall;
    var candidate := n.(currentTerm := n.currentTerm + 1, votedFor := n.id, role := Candidate, votesReceived := {n.id});
    LeadSameData(candidate, Saved(candidate, d), config);
  }

  lemma ProposeSameData(n: Node, d: Disk, config: Config, command: Bytes, save: bool)
    requires ValidNode(n)
    ensures var out := Propose(n, d, config, command, save); SameData(n, d, out.node, out.disk)
  {
    hide Broadcast;
    var n' := n.(log := n.log + [Entry(LastIndex(n.log) + 1, n.currentTerm, command)]);
    LeadSameData(n', Saved(n', d), config);
  }

  lemma VoteReplySameData(n: Node, d: Disk, config: Config, peer: NodeId, args: RequestVoteArgs,
                          reply: RequestVoteReply, save: bool)
    requires ValidNode(n)
    ensures var out := OnVoteReply(n, d, config, peer, args, reply, save); SameData(n, d, out.node, out.disk)
  {
    hide BecomeLeader;
    LeadSameData(n.(votesReceived := n.votesReceived + {peer}), d, config);
  }

  lemma AppendReplySameData(n: Node, d: Disk, peer: NodeId, args: AppendEntriesArgs, reply: AppendEntriesReply,
                            save: bool)
    requires ValidNode(n)
    ensures var (n', d', _) := OnAppendReply(n, d, peer, args, reply, save); SameData(n, d, n', d')
  {
    hide HighestCommittable;
  }

  lemma SnapshotReplySameData(n: Node, d: Disk, config: Config, peer: NodeId, args: InstallSnapshotArgs,
                              snapshot: Snapshot, reply: InstallSnapshotReply, save: bool)
    requires ValidNode(n)
    ensures var out := OnSnapshotReply(n, d, config, peer, args, snapshot, reply, save);
            SameData(n, d, out.node, out.disk)
  {
    hide HighestCommittable, ChunkCall;
  }

  lemma PlainSameData(c: Cluster, config: Config, e: Event)
    requires Enabled(c, e) && Plain(e)
    ensures var out := Act(c, config, e); SameData(c.nodes[Place(e)], c.disks[Place(e)], out.node, out.disk)
  {
    hide HandleAppendEntries, HandleRequestVote, StartElection, Broadcast, Propose, OnVoteReply, OnAppendReply,
         OnSnapshotReply, ReadCalls;
    var n, d := c.nodes[Place(e)], c.disks[Place(e)];
    match e
    case Timeout(_, save) => ElectionSameData(n, d, config, save);
    case Heartbeat(_) => LeadSameData(n, d, config);
    case Command(_, command, save) => ProposeSameData(n, d, config, command, save);
    case DeliverVoteRequest(message, saveTerm, saveVote) => VoteSameData(n, d, message.vote, saveTerm, saveVote);
    case DeliverVoteReply(message, save) => VoteReplySameData(n, d, config, message.src, message.vote, message.voted,
                                                              save);
    case DeliverAppend(message, saveTerm, saveLog) => AppendSameData(n, d, message.append, saveTerm, saveLog);
    case DeliverAppendReply(message, save) => AppendReplySameData(n, d, message.src, message.append, message.appended,
                                                                  save);
    case DeliverSnapshotReply(message, save) =>
      SnapshotReplySameData(n, d, config, message.src, message.install, message.snapshot, message.installed, save);
    case _ =>
  }

  // ------------------------------------------------------------------- chunks

  /** The chunk is the piece of the snapshot that it claims to be. */
  predicate GoodChunk(args: InstallSnapshotArgs, s: Snapshot) {
    && args.chunked
    && args.lastIndex == s.index
    && args.lastTerm == s.term
    && args.total == |s.data|
    && args.offset + |args.data| <= |s.data|
    && args.data == s.data[args.offset..args.offset + |args.data|]
    && (args.final <==> args.offset + |args.data| == |s.data|)
  }

  lemma ChunkIsGood(config: Config, id: NodeId, peer: NodeId, term: nat, s: Snapshot, offset: nat)
    requires offset <= |s.data|
    ensures var message := ChunkCall(id, peer, term, s, offset, config);
            && message.SnapshotRequest? && message.src == id && message.dst == peer && message.snapshot == s
            && message.install.term == term && message.install.offset == offset && GoodChunk(message.install, s)
  {
  }

  /** A chunk that continues the transfer is of the snapshot that it is of. */
  predicate OneStream(transfer: Option<Transfer>, args: InstallSnapshotArgs, s: Snapshot) {
    args.offset > 0 && Continues(transfer, args) && args.offset <= |s.data| ==>
      transfer.value.buf == s.data[..args.offset]
  }

  /** What a chunk leaves of a transfer of one snapshot is the beginning of it,
      and only the whole of it completes the transfer. */
  lemma ReceivesPrefix(config: Config, transfer: Option<Transfer>, args: InstallSnapshotArgs, s: Snapshot)
    requires GoodChunk(args, s) && OneStream(transfer, args, s)
    ensures var (transfer', accepted, payload) := ReceiveChunk(transfer, config, args);
            && (accepted ==> transfer'.Some? && transfer'.value.index == s.index && transfer'.value.buf <= s.data)
            && (!accepted ==> transfer'.None? || transfer' == transfer)
            && (payload.Some? ==> payload.value == s.data)
            && (accepted ==> (payload.Some? <==> args.final))
  {
    var k := args.offset;
    if args.total <= MAX_SNAPSHOT_DATA && (k == 0 || Continues(transfer, args)) {
      var buf := if k == 0 then [] else transfer.value.buf;
      assert buf == s.data[..k];
      assert buf + args.data == s.data[..k + |args.data|];
      assert s.data[..|s.data|] == s.data;
    }
  }

  // --------------------------------------------------------------- invariants

  predicate IsSnap(m: Message) {
    m.SnapshotRequest? || m.SnapshotReply?
  }

  /** The leader and the follower of a chunk or of the answer to one. */
  function Sender(m: Message): NodeId {
    if m.SnapshotRequest? then m.src else m.dst
  }

  function Receiver(m: Message): NodeId {
    if m.SnapshotRequest? then m.dst else m.src
  }

  /** The snapshot at which the node's log begins. */
  function Held(n: Node): Snapshot
    requires ValidNode(n)
  {
    Snapshot(Boundary(n.log), n.log[0].term, n.snapshotData)
  }

  /** A leader sends the snapshot that it holds; it may since have taken a
      later one. */
  predicate FromLeader(n: Node, m: Message)
    requires ValidNode(n) && IsSnap(m)
  {
    n.role == Leader && n.currentTerm == m.install.term ==> m.snapshot.index < Boundary(n.log) || m.snapshot == Held(n)
  }

  /** Something of the snapshot has been accepted: an answer says so, or a
      later chunk has been sent. */
  predicate Begun(m: Message) {
    (m.SnapshotRequest? && m.install.offset > 0) || (m.SnapshotReply? && m.installed.success)
  }

  /** A follower that has accepted something of the snapshot in `term`. As long
      as it is in that term, it has since given up, or has the snapshot, or is
      still receiving it, and no other of this index. */
  predicate Receiving(n: Node, term: nat, s: Snapshot)
    requires ValidNode(n)
  {
    && term <= n.currentTerm
    && (term == n.currentTerm ==>
          || s.index <= Boundary(n.log)
          || n.chunkTransfer.None?
          || (n.chunkTransfer.value.index == s.index ==> n.chunkTransfer.value.buf <= s.data))
  }

  ghost predicate StreamOf(c: Cluster, m: Message)
    requires Valid(c) && IsSnap(m)
  {
    && GoodChunk(m.install, m.snapshot)
    && Sender(m) in c.nodes && FromLeader(c.nodes[Sender(m)], m)
    && (Begun(m) ==> Receiver(m) in c.nodes && Receiving(c.nodes[Receiver(m)], m.install.term, m.snapshot))
  }

  /** In one term one snapshot is sent for an index. */
  predicate SameSnapshot(a: Message, b: Message) {
    IsSnap(a) && IsSnap(b) && a.install.term == b.install.term && a.snapshot.index == b.snapshot.index ==>
      a.snapshot == b.snapshot
  }

  ghost predicate Streams(c: Cluster) {
    && Valid(c)
    && (forall m :: m in c.messages && IsSnap(m) ==> StreamOf(c, m))
    && (forall a, b :: a in c.messages && b in c.messages ==> SameSnapshot(a, b))
  }

  /** Wherever a chunk arrives and is looked at, it is of the snapshot that is
      being received. */
  lemma DeliveryIsOneStream(c: Cluster, m: Message)
    requires Streams(c) && m in c.messages && m.SnapshotRequest? && m.dst in c.nodes
    requires c.nodes[m.dst].currentTerm <= m.install.term && Boundary(c.nodes[m.dst].log) < m.install.lastIndex
    ensures OneStream(c.nodes[m.dst].chunkTransfer, m.install, m.snapshot)
  {
    assert StreamOf(c, m);
  }

  // ------------------------------------------------------ what was sent before

  /** A node that leads in a term it did not lead in before was not in it, or
      was a candidate. */
  lemma PlainLeads(c: Cluster, config: Config, e: Event)
    requires Enabled(c, e) && Plain(e)
    ensures var n, n' := c.nodes[Place(e)], Act(c, config, e).node;
            n'.role == Leader ==>
              n.currentTerm < n'.currentTerm || (n.currentTerm == n'.currentTerm && n.role != Follower)
  {
    hide HighestCommittable, PeerCall, VoteCall, ChunkCall, AppendAfter, Matching, TermAt, AppendCall, LogIsUpToDate;
  }

  /** A term that a node has led lies behind it, or it leads in it, or it has
      stepped down in it. */
  lemma LedBefore(h: C.State, v: NodeId, t: nat)
    requires v in h.servers && t in h.reigns && h.reigns[t].leader == v
    requires C.Inv(h)
    ensures t <= h.servers[v].term && (t == h.servers[v].term ==> h.servers[v].role != Candidate)
  {
    hide C.Keeps, C.SettledValid, C.ServersGrounded, C.BallotsGrounded, C.AcksValid, C.ChosenValid;
    assert C.ReignValid(h, t);
    assert C.BallotValid(h, v, t);
    assert C.CandidateValid(h, v);
  }

  lemma SnapReign(c: Cluster, h: C.State, m: Message)
    requires m in c.messages && IsSnap(m)
    requires R.Rel(c, h)
    ensures m.install.term in h.reigns && h.reigns[m.install.term].leader == Sender(m)
  {
    hide R.Rel, C.Inv, C.Witnessed;
    RelatedMessage(c, h, m);
  }

  lemma TiedTerm(c: Cluster, h: C.State, v: NodeId)
    requires v in c.nodes
    requires R.Rel(c, h)
    ensures v in h.servers && ValidNode(c.nodes[v]) && c.nodes[v].currentTerm == h.servers[v].term
    ensures c.nodes[v].role == h.servers[v].role
  {
    hide R.Rel, C.Inv, R.DiskRel, R.SnapshotRel, R.LeaderRel, R.Torn, Represents;
    RelatedNode(c, h, v);
  }

  lemma PlainFromLeader(c: Cluster, config: Config, e: Event, h: C.State, m: Message)
    requires Enabled(c, e) && Plain(e) && m in c.messages && IsSnap(m) && Sender(m) == Place(e)
    requires FromLeader(c.nodes[Place(e)], m)
    requires R.Rel(c, h)
    ensures ValidNode(Act(c, config, e).node) && FromLeader(Act(c, config, e).node, m)
  {
    hide R.Rel, Act, C.Inv;
    PlainSameData(c, config, e);
    PlainLeads(c, config, e);
    SnapReign(c, h, m);
    TiedTerm(c, h, Place(e));
    InvOf(c, h);
    LedBefore(h, Place(e), m.install.term);
  }

  lemma InvOf(c: Cluster, h: C.State)
    requires R.Rel(c, h)
    ensures C.Inv(h)
  {
  }

  lemma OwnFromLeader(c: Cluster, config: Config, e: Event, m: Message)
    requires Enabled(c, e) && !Plain(e) && IsSnap(m) && FromLeader(c.nodes[Place(e)], m)
    ensures ValidNode(Act(c, config, e).node) && FromLeader(Act(c, config, e).node, m)
  {
    hide HandleInstallSnapshot, CreateSnapshot, NewNode, FromLeader, MarkApplied, ConfirmSnapshotRestored, Act;
    var n, d := c.nodes[Place(e)], c.disks[Place(e)];
    if e.DeliverSnapshot? {
      var args := e.message.install;
      DeliveredNode(c, config, e);
      InstallFromLeader(n, d, config, args, e.saveTerm, e.saveSnapshot, e.saveState, m);
    } else {
      OwnNode(c, config, e);
      if e.TakeSnapshot? {
        TakenFromLeader(n, d, e.index, e.data, e.saveSnapshot && |e.data| <= MAX_SNAPSHOT_DATA, e.saveState, m);
      } else if e.Restart? {
        NewFromLeader(e.node, n.peers, d, m);
      } else {
        ProgressedSame(n, e.index);
        KeptFromLeader(n, if e.Applied? then MarkApplied(n, e.index) else ConfirmSnapshotRestored(n, e.index), m);
      }
    }
  }

  lemma DeliveredNode(c: Cluster, config: Config, e: Event)
    requires Enabled(c, e) && e.DeliverSnapshot?
    ensures e.message.SnapshotRequest?
    ensures Act(c, config, e).node
            == HandleInstallSnapshot(c.nodes[Place(e)], c.disks[Place(e)], config, e.message.install,
                                     e.saveTerm, e.saveSnapshot, e.saveState).0
  {
    hide HandleInstallSnapshot;
  }

  lemma OwnNode(c: Cluster, config: Config, e: Event)
    requires Enabled(c, e) && !Plain(e) && !e.DeliverSnapshot?
    ensures e.TakeSnapshot? || e.Restart? || e.Applied? || e.Restored?
    ensures var n, d, n' := c.nodes[Place(e)], c.disks[Place(e)], Act(c, config, e).node;
            && (e.TakeSnapshot? ==>
                  n' == CreateSnapshot(n, d, e.index, e.data, e.saveSnapshot && |e.data| <= MAX_SNAPSHOT_DATA,
                                       e.saveState).0)
            && (e.Restart? ==> NewNode(e.node, n.peers, d).Some? && n' == NewNode(e.node, n.peers, d).value)
            && (e.Applied? ==> n' == MarkApplied(n, e.index))
            && (e.Restored? ==> n' == ConfirmSnapshotRestored(n, e.index))
  {
    hide CreateSnapshot, NewNode, MarkApplied, ConfirmSnapshotRestored;
  }

  lemma ProgressedSame(n: Node, index: nat)
    requires ValidNode(n)
    ensures var n' := MarkApplied(n, index); n' == n.(lastApplied := n'.lastApplied)
    ensures var n' := ConfirmSnapshotRestored(n, index);
            n' == n.(lastApplied := n'.lastApplied, pendingSnapshot := n'.pendingSnapshot)
  {
  }

  lemma KeptFromLeader(n: Node, n': Node, m: Message)
    requires ValidNode(n) && IsSnap(m) && FromLeader(n, m)
    requires n' == n.(lastApplied := n'.lastApplied, pendingSnapshot := n'.pendingSnapshot)
    ensures FromLeader(n', m)
  {
  }

  lemma NewFromLeader(v: NodeId, peers: seq<NodeId>, d: Disk, m: Message)
    requires IsSnap(m)
    ensures var n := NewNode(v, peers, d); n.Some? ==> ValidNode(n.value) && FromLeader(n.value, m)
  {
  }

  lemma InstallFromLeader(n: Node, d: Disk, config: Config, args: InstallSnapshotArgs,
                          saveTerm: bool, saveSnapshot: bool, saveState: bool, m: Message)
    requires ValidNode(n) && IsSnap(m) && FromLeader(n, m)
    ensures var (n', _, _) := HandleInstallSnapshot(n, d, config, args, saveTerm, saveSnapshot, saveState);
            ValidNode(n') && FromLeader(n', m)
  {
    hide ReceiveChunk, WithBoundary;
    CompactedAt(n.log, args.lastIndex, args.lastTerm);
  }

  lemma TakenFromLeader(n: Node, d: Disk, index: nat, data: Bytes, saveSnapshot: bool, saveState: bool, m: Message)
    requires ValidNode(n) && IsSnap(m) && FromLeader(n, m)
    ensures var n' := CreateSnapshot(n, d, index, data, saveSnapshot, saveState).0; ValidNode(n') && FromLeader(n', m)
  {
  }

  lemma CompactedAt(l: Slice, index: nat, term: nat)
    requires |l| > 0
    ensures |WithBoundary(l, index, term)| > 0
  {
  }

  // ------------------------------------------------------- what has been begun

  /** A delivery leaves what was begun as it should be, whatever arrives. */
  lemma DeliverReceiving(n: Node, d: Disk, config: Config, args: InstallSnapshotArgs, s: Snapshot, term: nat,
                         t: Snapshot, saveTerm: bool, saveSnapshot: bool, saveState: bool)
    requires ValidNode(n) && GoodChunk(args, s) && Receiving(n, term, t)
    requires (args.term == term && s.index == t.index ==> s == t)
    requires n.currentTerm <= args.term && Boundary(n.log) < s.index ==> OneStream(n.chunkTransfer, args, s)
    ensures var (n', _, _) := HandleInstallSnapshot(n, d, config, args, saveTerm, saveSnapshot, saveState);
            ValidNode(n') && Receiving(n', term, t)
  {
    hide ReceiveChunk, GoodChunk, OneStream, WithBoundary;
    CompactedAt(n.log, args.lastIndex, args.lastTerm);
    ChunkOf(args, s);
    if n.currentTerm <= args.term && Boundary(n.log) < s.index {
      ReceivesPrefix(config, n.chunkTransfer, args, s);
    }
  }

  lemma ChunkOf(args: InstallSnapshotArgs, s: Snapshot)
    requires GoodChunk(args, s)
    ensures args.chunked && args.lastIndex == s.index && args.lastTerm == s.term
  {
  }

  /** A success means that what was sent has been accepted. */
  lemma DeliverBegins(n: Node, d: Disk, config: Config, args: InstallSnapshotArgs, s: Snapshot,
                      saveTerm: bool, saveSnapshot: bool, saveState: bool)
    requires ValidNode(n) && GoodChunk(args, s)
    requires n.currentTerm <= args.term && Boundary(n.log) < s.index ==> OneStream(n.chunkTransfer, args, s)
    ensures var (n', _, reply) := HandleInstallSnapshot(n, d, config, args, saveTerm, saveSnapshot, saveState);
            ValidNode(n') && (reply.success ==> Receiving(n', args.term, s))
  {
    hide ReceiveChunk, GoodChunk, OneStream, WithBoundary;
    CompactedAt(n.log, args.lastIndex, args.lastTerm);
    ChunkOf(args, s);
    if n.currentTerm <= args.term && Boundary(n.log) < s.index {
      ReceivesPrefix(config, n.chunkTransfer, args, s);
    }
  }

  lemma KeptReceiving(n: Node, n': Node, term: nat, s: Snapshot)
    requires ValidNode(n) && ValidNode(n') && Receiving(n, term, s) && n.currentTerm <= n'.currentTerm
    requires n'.chunkTransfer.None? || (n'.chunkTransfer == n.chunkTransfer && Boundary(n.log) <= Boundary(n'.log))
    ensures Receiving(n', term, s)
  {
  }

  lemma TakenKeeps(n: Node, d: Disk, index: nat, data: Bytes, saveSnapshot: bool, saveState: bool)
    requires ValidNode(n)
    ensures var n' := CreateSnapshot(n, d, index, data, saveSnapshot, saveState).0;
            ValidNode(n') && n'.chunkTransfer == n.chunkTransfer && Boundary(n.log) <= Boundary(n'.log)
  {
  }

  lemma NewHasNone(v: NodeId, peers: seq<NodeId>, d: Disk)
    ensures var n := NewNode(v, peers, d); n.Some? ==> ValidNode(n.value) && n.value.chunkTransfer.None?
  {
  }

  lemma InstallReceiving(c: Cluster, config: Config, message: Message, saveTerm: bool, saveSnapshot: bool,
                         saveState: bool, m: Message)
    requires Streams(c) && m in c.messages && IsSnap(m) && Begun(m) && Receiver(m) == message.dst
    requires message in c.messages && message.SnapshotRequest? && message.dst in c.nodes
    ensures var n := c.nodes[message.dst];
            var (n', _, _) := HandleInstallSnapshot(n, c.disks[message.dst], config, message.install, saveTerm,
                                                    saveSnapshot, saveState);
            ValidNode(n') && Receiving(n', m.install.term, m.snapshot)
  {
    hide HandleInstallSnapshot, Receiving, GoodChunk, FromLeader;
    var n := c.nodes[message.dst];
    assert StreamOf(c, m) && StreamOf(c, message) && SameSnapshot(message, m);
    ChunkOf(message.install, message.snapshot);
    if n.currentTerm <= message.install.term && Boundary(n.log) < message.snapshot.index {
      DeliveryIsOneStream(c, message);
    }
    DeliverReceiving(n, c.disks[message.dst], config, message.install, message.snapshot, m.install.term, m.snapshot,
                     saveTerm, saveSnapshot, saveState);
  }

  /** What was begun at the node of the event is still as it should be. */
  lemma EventReceiving(c: Cluster, config: Config, e: Event, m: Message)
    requires Enabled(c, e) && Streams(c) && m in c.messages && IsSnap(m) && Begun(m) && Receiver(m) == Place(e)
    requires ValidNode(Act(c, config, e).node) && c.nodes[Place(e)].currentTerm <= Act(c, config, e).node.currentTerm
    ensures Receiving(Act(c, config, e).node, m.install.term, m.snapshot)
  {
    hide HandleInstallSnapshot, CreateSnapshot, NewNode, StartElection, Broadcast, Propose, HandleRequestVote,
         OnVoteReply, HandleAppendEntries, OnAppendReply, OnSnapshotReply, ReadCalls, Receiving, GoodChunk, FromLeader;
    assert StreamOf(c, m);
    var n, d, n' := c.nodes[Place(e)], c.disks[Place(e)], Act(c, config, e).node;
    if Plain(e) {
      PlainSameData(c, config, e);
      KeptReceiving(n, n', m.install.term, m.snapshot);
    } else {
      match e
      case DeliverSnapshot(message, saveTerm, saveSnapshot, saveState) =>
        InstallReceiving(c, config, message, saveTerm, saveSnapshot, saveState, m);
      case TakeSnapshot(_, index, data, saveSnapshot, saveState) =>
        TakenKeeps(n, d, index, data, saveSnapshot && |data| <= MAX_SNAPSHOT_DATA, saveState);
        KeptReceiving(n, n', m.install.term, m.snapshot);
      case Restart(v) =>
        NewHasNone(v, n.peers, d);
        KeptReceiving(n, n', m.install.term, m.snapshot);
      case Applied(_, _) => KeptReceiving(n, n', m.install.term, m.snapshot);
      case Restored(_, _) => KeptReceiving(n, n', m.install.term, m.snapshot);
      case _ =>
    }
  }

  // ------------------------------------------------------------- what is sent

  /** The first chunk of what a leader holds. */
  predicate FirstChunk(n: Node, m: Message)
    requires ValidNode(n)
  {
    && m.SnapshotRequest? && m.src == n.id && n.role == Leader && m.install.term == n.currentTerm
    && m.snapshot == Held(n) && m.install.offset == 0 && GoodChunk(m.install, m.snapshot)
  }

  /** Another chunk of a snapshot that is being sent, or an answer to one. */
  predicate GoesOn(c: Cluster, v: NodeId, n: Node, m: Message, from: Message)
    requires ValidNode(n) && IsSnap(m)
  {
    && from in c.messages && IsSnap(from)
    && m.install.term == from.install.term && m.snapshot == from.snapshot
    && Sender(m) == Sender(from) && Receiver(m) == Receiver(from) && GoodChunk(m.install, m.snapshot)
    && (Begun(m) ==> Begun(from) || (Receiver(m) == v && Receiving(n, m.install.term, m.snapshot)))
  }

  ghost predicate SentBy(c: Cluster, v: NodeId, n: Node, m: Message)
    requires ValidNode(n)
  {
    IsSnap(m) ==> FirstChunk(n, m) || exists from :: GoesOn(c, v, n, m, from)
  }

  ghost predicate AllSentBy(c: Cluster, v: NodeId, out: Outcome) {
    ValidNode(out.node) && forall m :: m in out.sent ==> SentBy(c, v, out.node, m)
  }

  lemma BroadcastSends(c: Cluster, v: NodeId, n: Node, d: Disk, config: Config)
    requires ValidNode(n) && n.role == Leader
    ensures AllSentBy(c, v, Broadcast(n, d, config))
  {
    hide HighestCommittable, ChunkCall, GoodChunk, AppendCall, GoesOn;
    var out := Broadcast(n, d, config);
    forall m | m in out.sent && IsSnap(m)
      ensures FirstChunk(out.node, m)
    {
      var p :| p in n.peers && m == PeerCall(n, config, p);
      ChunkIsGood(config, n.id, p, n.currentTerm, Held(n), 0);
      AppendIsNoSnap(n, p, 0);
    }
  }

  lemma AppendIsNoSnap(n: Node, p: NodeId, read: nat)
    requires ValidNode(n)
    ensures Get(n.nextIndex, p) > Boundary(n.log) ==> !IsSnap(AppendCall(n, p, read))
  {
  }

  lemma LeadSends(c: Cluster, v: NodeId, n: Node, d: Disk, config: Config)
    requires ValidNode(n)
    ensures AllSentBy(c, v, BecomeLeader(n, d, config))
  {
    hide Broadcast, AllSentBy;
    var leader := n.(role := Leader, leaderId := n.id, votesReceived := {},
                     nextIndex := Assigned(n.peers, LastIndex(n.log) + 1), matchIndex := Assigned(n.peers, 0));
    BroadcastSends(c, v, leader, d, config);
  }

  lemma NoSnapSent(c: Cluster, v: NodeId, out: Outcome)
    requires ValidNode(out.node) && forall m :: m in out.sent ==> !IsSnap(m)
    ensures AllSentBy(c, v, out)
  {
  }

  lemma ElectionSends(c: Cluster, v: NodeId, n: Node, d: Disk, config: Config, save: bool)
    requires ValidNode(n)
    ensures AllSentBy(c, v, StartElection(n, d, config, save))
  {
    hide BecomeLeader, AllSentBy;
    var candidate := n.(currentTerm := n.currentTerm + 1, votedFor := n.id, role := Candidate, votesReceived := {n.id});
    LeadSends(c, v, candidate, Saved(candidate, d), config);
    var out := StartElection(n, d, config, save);
    if !(save && 1 >= Quorum(n)) {
      assert |{n.id}| == 1;
      NoSnapSent(c, v, out);
    }
  }

  lemma ProposeSends(c: Cluster, v: NodeId, n: Node, d: Disk, config: Config, command: Bytes, save: bool)
    requires ValidNode(n)
    ensures AllSentBy(c, v, Propose(n, d, config, command, save))
  {
    hide Broadcast, AllSentBy;
    if n.role == Leader && save {
      var n' := n.(log := n.log + [Entry(LastIndex(n.log) + 1, n.currentTerm, command)]);
      BroadcastSends(c, v, n', Saved(n', d), config);
    } else {
      NoSnapSent(c, v, Propose(n, d, config, command, save));
    }
  }

  lemma VoteReplySends(c: Cluster, v: NodeId, n: Node, d: Disk, config: Config, peer: NodeId,
                       args: RequestVoteArgs, reply: RequestVoteReply, save: bool)
    requires ValidNode(n)
    ensures AllSentBy(c, v, OnVoteReply(n, d, config, peer, args, reply, save))
  {
    hide BecomeLeader, AllSentBy;
    var counted := n.(votesReceived := n.votesReceived + {peer});
    LeadSends(c, v, counted, d, config);
    var out := OnVoteReply(n, d, config, peer, args, reply, save);
    if out != BecomeLeader(counted, d, config) {
      NoSnapSent(c, v, out);
    }
  }

  /** The leader's answer to a success is the next chunk of the same snapshot. */
  lemma SnapshotReplySends(c: Cluster, v: NodeId, n: Node, d: Disk, config: Config, m: Message, save: bool)
    requires ValidNode(n) && m in c.messages && m.SnapshotReply? && m.dst == v == n.id
    requires GoodChunk(m.install, m.snapshot)
    ensures AllSentBy(c, v, OnSnapshotReply(n, d, config, m.src, m.install, m.snapshot, m.installed, save))
  {
    hide HighestCommittable, ChunkCall, FirstChunk;
    var out := OnSnapshotReply(n, d, config, m.src, m.install, m.snapshot, m.installed, save);
    ChunkIsGood(config, n.id, m.src, m.install.term, m.snapshot, m.install.offset + |m.install.data|);
    forall next | next in out.sent
      ensures GoesOn(c, v, out.node, next, m)
    {
    }
  }

  lemma DeliverSends(c: Cluster, config: Config, m: Message, saveTerm: bool, saveSnapshot: bool, saveState: bool)
    requires Enabled(c, DeliverSnapshot(m, saveTerm, saveSnapshot, saveState)) && Streams(c)
    ensures AllSentBy(c, m.dst, Act(c, config, DeliverSnapshot(m, saveTerm, saveSnapshot, saveState)))
  {
    hide HandleInstallSnapshot, GoodChunk, FromLeader, Receiving, FirstChunk;
    var n, d := c.nodes[m.dst], c.disks[m.dst];
    assert StreamOf(c, m);
    ChunkOf(m.install, m.snapshot);
    if n.currentTerm <= m.install.term && Boundary(n.log) < m.snapshot.index {
      DeliveryIsOneStream(c, m);
    }
    DeliverBegins(n, d, config, m.install, m.snapshot, saveTerm, saveSnapshot, saveState);
    var out := Act(c, config, DeliverSnapshot(m, saveTerm, saveSnapshot, saveState));
    forall reply | reply in out.sent
      ensures GoesOn(c, m.dst, out.node, reply, m)
    {
    }
  }

  lemma EventSends(c: Cluster, config: Config, e: Event)
    requires Enabled(c, e) && Streams(c) && c.nodes[Place(e)].id == Place(e) && ValidNode(Act(c, config, e).node)
    ensures AllSentBy(c, Place(e), Act(c, config, e))
  {
    hide HandleInstallSnapshot, CreateSnapshot, NewNode, StartElection, Broadcast, Propose, HandleRequestVote,
         OnVoteReply,
         HandleAppendEntries, OnAppendReply, OnSnapshotReply, AppendCall, AllSentBy, GoodChunk, FromLeader, Receiving;
    var v, n, d := Place(e), c.nodes[Place(e)], c.disks[Place(e)];
    match e
    case Timeout(_, save) => ElectionSends(c, v, n, d, config, save);
    case Heartbeat(_) => BroadcastSends(c, v, n, d, config);
    case Command(_, command, save) => ProposeSends(c, v, n, d, config, command, save);
    case DeliverVoteReply(m, save) => VoteReplySends(c, v, n, d, config, m.src, m.vote, m.voted, save);
    case DeliverSnapshot(m, saveTerm, saveSnapshot, saveState) => DeliverSends(c, config, m, saveTerm, saveSnapshot,
                                                                               saveState);
    case DeliverSnapshotReply(m, save) =>
      assert StreamOf(c, m);
      SnapshotReplySends(c, v, n, d, config, m, save);
    case _ =>
      QuietSends(c, config, e);
  }

  /** The other events send no part of a snapshot. */
  lemma QuietSends(c: Cluster, config: Config, e: Event)
    requires Enabled(c, e) && ValidNode(Act(c, config, e).node)
    requires e.DeliverVoteRequest? || e.DeliverAppend? || e.DeliverAppendReply? || e.TakeSnapshot? || e.Applied?
             || e.Restored?
          || e.Restart? || e.BeginRead?
    ensures AllSentBy(c, Place(e), Act(c, config, e))
  {
    hide AllSentBy, HandleInstallSnapshot, CreateSnapshot, NewNode, StartElection, Broadcast, Propose,
         HandleRequestVote, OnVoteReply, HandleAppendEntries, OnAppendReply, OnSnapshotReply, AppendCall;
    forall m | m in Act(c, config, e).sent
      ensures !IsSnap(m)
    {
      if e.BeginRead? {
        var n := c.nodes[e.node];
        var p :| p in n.peers && Get(n.nextIndex, p) > Boundary(n.log) && m == AppendCall(n, p, e.read);
        AppendIsNoSnap(n, p, e.read);
      }
    }
    NoSnapSent(c, Place(e), Act(c, config, e));
  }

  // ------------------------------------------------------------------- a step

  lemma OldStream(c: Cluster, config: Config, e: Event, c': Cluster, h: C.State, m: Message)
    requires Next(c, config, e, c') && Streams(c) && m in c.messages && IsSnap(m)
    requires Place(e) in c'.nodes && Valid(c') && c.nodes[Place(e)].currentTerm <= c'.nodes[Place(e)].currentTerm
    requires R.Rel(c, h)
    ensures StreamOf(c', m)
  {
    hide R.Rel, Act, Receiving, GoodChunk, FromLeader, Enabled, ReadsAfter;
    assert StreamOf(c, m);
    PlaceIn(c, e);
    if Sender(m) == Place(e) {
      if Plain(e) {
        PlainFromLeader(c, config, e, h, m);
      } else {
        OwnFromLeader(c, config, e, m);
      }
    }
    if Begun(m) && Receiver(m) == Place(e) {
      EventReceiving(c, config, e, m);
    }
  }

  lemma PlaceIn(c: Cluster, e: Event)
    requires Enabled(c, e)
    ensures Valid(c) && Place(e) in c.nodes
  {
  }

  /** A message that was just sent, or its first part. */
  lemma NewStream(c: Cluster, config: Config, e: Event, c': Cluster, h: C.State, m: Message)
    requires Next(c, config, e, c') && Streams(c) && m in Act(c, config, e).sent && IsSnap(m)
    requires c.nodes[Place(e)].id == Place(e)
    requires Place(e) in c'.nodes && Valid(c') && c.nodes[Place(e)].currentTerm <= c'.nodes[Place(e)].currentTerm
    requires c'.nodes[Place(e)].id == Place(e)
    requires R.Rel(c, h)
    ensures StreamOf(c', m)
    ensures FirstChunk(c'.nodes[Place(e)], m) || exists from :: GoesOn(c, Place(e), c'.nodes[Place(e)], m, from)
  {
    hide R.Rel, Act, Receiving, GoodChunk, Enabled, ReadsAfter;
    PlaceIn(c, e);
    EventSends(c, config, e);
    var n := c'.nodes[Place(e)];
    assert SentBy(c, Place(e), n, m);
    if !FirstChunk(n, m) {
      var from :| GoesOn(c, Place(e), n, m, from);
      OldStream(c, config, e, c', h, from);
    }
  }


  /** Where a message of a snapshot in the new state comes from. */
  ghost predicate Comes(c: Cluster, v: NodeId, n: Node, m: Message)
    requires ValidNode(n) && IsSnap(m)
  {
    FirstChunk(n, m) || exists from :: from in c.messages && IsSnap(from) && SameStream(from, m)
  }

  predicate SameStream(a: Message, b: Message)
    requires IsSnap(a) && IsSnap(b)
  {
    a.install.term == b.install.term && a.snapshot == b.snapshot && Sender(a) == Sender(b)
  }

  /** The first chunk agrees with whatever its leader has sent in this term. */
  lemma FirstAgrees(c: Cluster, h: C.State, n: Node, v: NodeId, first: Message, m: Message)
    requires v in c.nodes && ValidNode(n) && FirstChunk(n, first) && n.id == v && m in c.messages && IsSnap(m)
    requires m.install.term == first.install.term && m.snapshot.index == first.snapshot.index
    requires Sender(m) == v ==> FromLeader(n, m)
    requires first.install.term in h.reigns ==> h.reigns[first.install.term].leader == v
    requires R.Rel(c, h)
    ensures m.snapshot == first.snapshot
  {
    hide R.Rel;
    SnapReign(c, h, m);
  }

  /** A node that leads is the leader of its term, also of the past. */
  lemma LeadsReign(c: Cluster, h: C.State, c': Cluster, h': C.State, v: NodeId)
    requires v in c'.nodes && c'.nodes[v].role == Leader && P.Grows(h, h')
    requires R.Rel(c', h')
    ensures c'.nodes[v].currentTerm in h.reigns ==> h.reigns[c'.nodes[v].currentTerm].leader == v
  {
    hide R.Rel, C.Inv;
    TiedTerm(c', h', v);
    InvOf(c', h');
    LeaderReigns(h', v);
  }

  lemma NewAgrees(c: Cluster, config: Config, e: Event, c': Cluster, h: C.State, h': C.State, a: Message, b: Message)
    requires Next(c, config, e, c') && Streams(c) && a in c'.messages && b in c'.messages && IsSnap(a) && IsSnap(b)
    requires Valid(c') && Place(e) in c'.nodes && c'.nodes[Place(e)].id == Place(e)
    requires Comes(c, Place(e), c'.nodes[Place(e)], a) && Comes(c, Place(e), c'.nodes[Place(e)], b)
    requires forall m :: m in c.messages && IsSnap(m) ==> StreamOf(c', m)
    requires a.install.term == b.install.term && a.snapshot.index == b.snapshot.index
    requires P.Grows(h, h') && R.Rel(c', h')
    requires R.Rel(c, h)
    ensures a.snapshot == b.snapshot
  {
    hide R.Rel, P.Grows, Next, FromLeader, Receiving, GoodChunk;
    var v, n := Place(e), c'.nodes[Place(e)];
    PlaceOf(c, config, e, c');
    if FirstChunk(n, a) || FirstChunk(n, b) {
      LeadsReign(c, h, c', h', v);
    }
    if FirstChunk(n, a) && !FirstChunk(n, b) {
      var from :| from in c.messages && IsSnap(from) && SameStream(from, b);
      assert StreamOf(c', from);
      FirstAgrees(c, h, n, v, a, from);
    } else if !FirstChunk(n, a) && FirstChunk(n, b) {
      var from :| from in c.messages && IsSnap(from) && SameStream(from, a);
      assert StreamOf(c', from);
      FirstAgrees(c, h, n, v, b, from);
    } else if !FirstChunk(n, a) {
      var x :| x in c.messages && IsSnap(x) && SameStream(x, a);
      var y :| y in c.messages && IsSnap(y) && SameStream(y, b);
      assert SameSnapshot(x, y);
    }
  }

  lemma PlaceOf(c: Cluster, config: Config, e: Event, c': Cluster)
    requires Next(c, config, e, c')
    ensures Enabled(c, e) && Valid(c) && Place(e) in c.nodes && Place(e) in c'.nodes
    ensures c'.nodes == c.nodes[Place(e) := Act(c, config, e).node]
    ensures c'.messages == c.messages + Act(c, config, e).sent
  {
    hide Act, ReadsAfter;
  }

  lemma TermsGrow(c: Cluster, c': Cluster, h: C.State, h': C.State, v: NodeId)
    requires v in c.nodes && v in c'.nodes && P.Grows(h, h') && R.Rel(c', h')
    requires R.Rel(c, h)
    ensures c.nodes[v].currentTerm <= c'.nodes[v].currentTerm && c.nodes[v].id == v && c'.nodes[v].id == v
  {
    hide R.Rel, C.Inv, R.DiskRel, R.SnapshotRel, R.LeaderRel, R.Torn, Represents;
    RelatedNode(c, h, v);
    RelatedNode(c', h', v);
  }

  lemma ComesFrom(c: Cluster, config: Config, e: Event, c': Cluster, h: C.State, m: Message)
    requires Next(c, config, e, c') && Streams(c) && m in c'.messages && IsSnap(m) && Valid(c') && Place(e) in c.nodes
    requires Place(e) in c'.nodes
    requires c.nodes[Place(e)].id == Place(e) && c'.nodes[Place(e)].id == Place(e)
    requires c.nodes[Place(e)].currentTerm <= c'.nodes[Place(e)].currentTerm
    requires R.Rel(c, h)
    ensures StreamOf(c', m) && Comes(c, Place(e), c'.nodes[Place(e)], m)
  {
    hide R.Rel, Next, StreamOf, Receiving, GoodChunk, FirstChunk;
    PlaceOf(c, config, e, c');
    if m in c.messages {
      OldStream(c, config, e, c', h, m);
      assert SameStream(m, m);
    } else {
      NewStream(c, config, e, c', h, m);
      if !FirstChunk(c'.nodes[Place(e)], m) {
        var from :| GoesOn(c, Place(e), c'.nodes[Place(e)], m, from);
        assert SameStream(from, m);
      }
    }
  }

  /** Every event keeps the streams apart. */
  lemma StreamsKeep(c: Cluster, config: Config, e: Event, c': Cluster, h: C.State, h': C.State)
    requires Next(c, config, e, c') && Streams(c) && Valid(c') && P.Grows(h, h') && R.Rel(c', h')
    requires R.Rel(c, h)
    ensures Streams(c')
  {
    hide R.Rel, P.Grows, Next, StreamOf, Comes;
    PlaceOf(c, config, e, c');
    TermsGrow(c, c', h, h', Place(e));
    forall m | m in c'.messages && IsSnap(m)
      ensures StreamOf(c', m) && Comes(c, Place(e), c'.nodes[Place(e)], m)
    {
      ComesFrom(c, config, e, c', h, m);
    }
    forall a, b | a in c'.messages && b in c'.messages
      ensures SameSnapshot(a, b)
    {
      if IsSnap(a) && IsSnap(b) && a.install.term == b.install.term && a.snapshot.index == b.snapshot.index {
        NewAgrees(c, config, e, c', h, h', a, b);
      }
    }
  }

  // -------------------------------------------------------------------- runs

  lemma RelatedValid(c: Cluster, h: C.State)
    requires R.Rel(c, h)
    ensures Valid(c)
  {
    hide C.Inv, R.Tied, R.MessageRel;
    forall v | v in c.nodes
      ensures ValidNode(c.nodes[v])
    {
      RaftRuns.NodeDrawn(c, h, v, h.chosen);
    }
  }

  lemma {:induction false} RunStreams(config: Config, run: seq<Cluster>, events: seq<Event>, i: nat)
    requires IsRun(config, run, events) && i < |run|
    ensures Streams(run[i])
    decreases i
  {
    hide Next, R.Rel, P.Grows, Streams;
    var hs := RaftRuns.RunTraced(config, run, events);
    RelatedValid(run[i], hs[i]);
    if i == 0 {
      InitStreams(run[0]);
    } else {
      RunStreams(config, run, events, i - 1);
      assert Next(run[i - 1], config, events[i - 1], run[i - 1 + 1]);
      assert P.Grows(hs[i - 1], hs[i]);
      StreamsKeep(run[i - 1], config, events[i - 1], run[i], hs[i - 1], hs[i]);
    }
  }

  lemma InitStreams(c: Cluster)
    requires Init(c) && Valid(c)
    ensures Streams(c)
  {
  }

  /** In every run, whatever the network loses, repeats and reorders and
      whichever leaders send: a chunk that is looked at leaves the beginning
      of the snapshot that it was cut from, and completes nothing else. */
  lemma NeverMixed(config: Config, run: seq<Cluster>, events: seq<Event>, i: nat)
    requires IsRun(config, run, events) && i < |events| && events[i].DeliverSnapshot?
    requires events[i].message.SnapshotRequest? && events[i].message.dst in run[i].nodes
    ensures var n, args, s :=
        run[i].nodes[events[i].message.dst], events[i].message.install, events[i].message.snapshot;
            && ValidNode(n) && args.chunked && args.lastIndex == s.index && args.lastTerm == s.term
            && (n.currentTerm <= args.term && Boundary(n.log) < args.lastIndex ==>
                  var (transfer, accepted, payload) := ReceiveChunk(n.chunkTransfer, config, args);
                  && (accepted ==> transfer.Some? && transfer.value.index == s.index && transfer.value.buf <= s.data)
                  && (payload.Some? ==> payload.value == s.data)
                  && (accepted ==> (payload.Some? <==> args.final)))
  {
    hide R.Rel, Init, GoodChunk, OneStream, ReceiveChunk, FromLeader, Receiving;
    RunStreams(config, run, events, i);
    var c, m := run[i], events[i].message;
    assert Next(c, config, events[i], run[i + 1]);
    assert StreamOf(c, m);
    ChunkOf(m.install, m.snapshot);
    if c.nodes[m.dst].currentTerm <= m.install.term && Boundary(c.nodes[m.dst].log) < m.install.lastIndex {
      DeliveryIsOneStream(c, m);
      ReceivesPrefix(config, c.nodes[m.dst].chunkTransfer, m.install, m.snapshot);
    }
  }
}
