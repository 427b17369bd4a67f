/** A cluster of Raft nodes over a network that may lose, repeat, delay and
    reorder messages: every message ever sent stays deliverable, any number of
    times, and nothing forces a delivery. Saves may fail and nodes may restart
    from their disks at any moment. */
module RaftCluster {
  import opened Options
  import opened RaftTypes
  import opened RaftMessages
  import opened RaftHandlers

  /** A read barrier in progress: the leader's term and commit index when it
      began, the whole cluster at that moment, and the peers that have
      acknowledged it since. */
  datatype Read = Read(node: NodeId, term: nat, index: nat, start: map<NodeId, Node>, acks: set<NodeId>)

  datatype Cluster = Cluster(
    nodes: map<NodeId, Node>,
    disks: map<NodeId, Disk>,
    messages: set<Message>,
    barriers: map<nat, Read>)

  datatype Event =
    | Timeout(node: NodeId, save: bool)
    | Heartbeat(node: NodeId)
    | Command(node: NodeId, command: Bytes, save: bool)
    | DeliverVoteRequest(message: Message, saveTerm: bool, saveVote: bool)
    | DeliverVoteReply(message: Message, save: bool)
    | DeliverAppend(message: Message, saveTerm: bool, saveLog: bool)
    | DeliverAppendReply(message: Message, save: bool)
    | DeliverSnapshot(message: Message, saveTerm: bool, saveSnapshot: bool, saveState: bool)
    | DeliverSnapshotReply(message: Message, save: bool)
    | TakeSnapshot(node: NodeId, index: nat, data: Bytes, saveSnapshot: bool, saveState: bool)
    | Applied(node: NodeId, index: nat)
    | Restored(node: NodeId, index: nat)
    | Restart(node: NodeId)
    | BeginRead(node: NodeId, read: nat)

  predicate Valid(c: Cluster) {
    && c.disks.Keys == c.nodes.Keys
    && forall v :: v in c.nodes ==> ValidNode(c.nodes[v])
  }

  /** The node at which an event happens. */
  function Place(e: Event): NodeId {
    match e
    case Timeout(v, _) => v
    case Heartbeat(v) => v
    case Command(v, _, _) => v
    case DeliverVoteRequest(m, _, _) => m.dst
    case DeliverVoteReply(m, _) => m.dst
    case DeliverAppend(m, _, _) => m.dst
    case DeliverAppendReply(m, _) => m.dst
    case DeliverSnapshot(m, _, _, _) => m.dst
    case DeliverSnapshotReply(m, _) => m.dst
    case TakeSnapshot(v, _, _, _, _) => v
    case Applied(v, _) => v
    case Restored(v, _) => v
    case Restart(v) => v
    case BeginRead(v, _) => v
  }

  predicate Enabled(c: Cluster, e: Event) {
    && Valid(c)
    && Place(e) in c.nodes
    && match e
       case Timeout(v, _) => c.nodes[v].role != Leader
       case Heartbeat(v) => c.nodes[v].role == Leader
       case DeliverVoteRequest(m, _, _) => m in c.messages && m.VoteRequest?
       case DeliverVoteReply(m, _) => m in c.messages && m.VoteReply?
       case DeliverAppend(m, _, _) => m in c.messages && m.AppendRequest?
       case DeliverAppendReply(m, _) => m in c.messages && m.AppendReply?
       case DeliverSnapshot(m, _, _, _) => m in c.messages && m.SnapshotRequest?
       case DeliverSnapshotReply(m, _) => m in c.messages && m.SnapshotReply?
       case Restart(v) => NewNode(v, c.nodes[v].peers, c.disks[v]).Some?
       case BeginRead(v, read) => c.nodes[v].role == Leader && read > 0 && read !in c.barriers
       case _ => true
  }

  /** What the node at `Place(e)` does. */
  function Act(c: Cluster, config: Config, e: Event): Outcome
    requires Enabled(c, e)
  {
    var n, d := c.nodes[Place(e)], c.disks[Place(e)];
    match e
    case Timeout(_, save) => StartElection(n, d, config, save)
    case Heartbeat(_) => Broadcast(n, d, config)
    case Command(_, command, save) => Propose(n, d, config, command, save)
    case DeliverVoteRequest(m, saveTerm, saveVote) =>
      var (n', d', reply) := HandleRequestVote(n, d, m.vote, saveTerm, saveVote);
      Outcome(n', d', {VoteReply(m.dst, m.src, m.vote, reply)})
    case DeliverVoteReply(m, save) => OnVoteReply(n, d, config, m.src, m.vote, m.voted, save)
    case DeliverAppend(m, saveTerm, saveLog) =>
      var (n', d', reply) := HandleAppendEntries(n, d, m.append, saveTerm, saveLog);
      Outcome(n', d', {AppendReply(m.dst, m.src, m.append, m.read, reply)})
    case DeliverAppendReply(m, save) =>
      var (n', d', _) := OnAppendReply(n, d, m.src, m.append, m.appended, save);
      Outcome(n', d', {})
    case DeliverSnapshot(m, saveTerm, saveSnapshot, saveState) =>
      var (n', d', reply) := HandleInstallSnapshot(n, d, config, m.install, saveTerm, saveSnapshot, saveState);
      Outcome(n', d', {SnapshotReply(m.dst, m.src, m.install, m.snapshot, reply)})
    case DeliverSnapshotReply(m, save) => OnSnapshotReply(n, d, config, m.src, m.install, m.snapshot, m.installed, save)
    case TakeSnapshot(_, index, data, saveSnapshot, saveState) =>
      var (n', d') := CreateSnapshot(n, d, index, data, saveSnapshot && |data| <= MAX_SNAPSHOT_DATA, saveState);
      Outcome(n', d', {})
    case Applied(_, index) => Outcome(MarkApplied(n, index), d, {})
    case Restored(_, index) => Outcome(ConfirmSnapshotRestored(n, index), d, {})
    case Restart(v) => Outcome(NewNode(v, n.peers, d).value, d, {})
    case BeginRead(_, read) => Outcome(n, d, ReadCalls(n, read))
  }

  /** The read barriers after an event: one may begin, and an acknowledgement
      may reach the one that asked for it. */
  function ReadsAfter(c: Cluster, e: Event): map<nat, Read>
    requires Enabled(c, e)
  {
    match e
    case BeginRead(v, read) =>
      var n := c.nodes[v];
      c.barriers[read := Read(v, n.currentTerm, n.commitIndex, c.nodes, {})]
    case DeliverAppendReply(m, save) =>
      var (_, _, ack) := OnAppendReply(c.nodes[m.dst], c.disks[m.dst], m.src, m.append, m.appended, save);
      if ack && m.read in c.barriers && c.barriers[m.read].node == m.dst && c.barriers[m.read].term == m.append.term
      then c.barriers[m.read := c.barriers[m.read].(acks := c.barriers[m.read].acks + {m.src})]
      else c.barriers
    case _ => c.barriers
  }

  function Step(c: Cluster, config: Config, e: Event): Cluster
    requires Enabled(c, e)
  {
    var v, out := Place(e), Act(c, config, e);
    Cluster(c.nodes[v := out.node], c.disks[v := out.disk], c.messages + out.sent, ReadsAfter(c, e))
  }

  /** The read may return: its leader still leads in the term it began in, and
      with the peers that acknowledged it forms a quorum. */
  predicate ReadSucceeds(c: Cluster, read: nat) {
    && read in c.barriers
    && c.barriers[read].node in c.nodes
    && var n, r := c.nodes[c.barriers[read].node], c.barriers[read];
       && n.role == Leader
       && n.currentTerm == r.term
       && 1 + |r.acks| >= Quorum(n)
  }

  // ---------------------------------------------------------------- premises

  /** Cluster membership: names are not empty, peers are distinct, exclude the
      node itself and are the same set of nodes for everyone. */
  ghost predicate Membership(c: Cluster) {
    forall v :: v in c.nodes ==>
      && v != NOBODY
      && c.nodes[v].id == v
      && PeersOf(c.nodes[v].peers, v, c.nodes.Keys)
  }

  ghost predicate PeersOf(peers: seq<NodeId>, v: NodeId, members: set<NodeId>) {
    && v in members
    && |peers| + 1 == |members|
    && (forall i, j :: 0 <= i < j < |peers| ==> peers[i] != peers[j])
    && (forall p :: p in peers <==> p in members && p != v)
  }

  /** A cluster before anything has happened: empty disks, fresh nodes. */
  ghost predicate Init(c: Cluster) {
    && Valid(c)
    && Membership(c)
    && c.messages == {}
    && c.barriers == map[]
    && forall v :: v in c.nodes ==>
         && c.disks[v] == Disk(None, None)
         && NewNode(v, c.nodes[v].peers, c.disks[v]) == Some(c.nodes[v])
  }

  ghost predicate Next(c: Cluster, config: Config, e: Event, c': Cluster) {
    Enabled(c, e) && c' == Step(c, config, e)
  }

  ghost predicate IsRun(config: Config, run: seq<Cluster>, events: seq<Event>) {
    && |run| == |events| + 1
    && Init(run[0])
    && forall i :: 0 <= i < |events| ==> Next(run[i], config, events[i], run[i + 1])
  }
}
