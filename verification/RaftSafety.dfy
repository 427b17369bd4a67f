/** Safety over whole runs: every event keeps the relation to the uncompacted
    protocol, so what holds there holds of the nodes. */
module RaftSafety {
  import opened RaftTypes
  import opened RaftMessages
  import opened RaftHandlers
  import opened RaftCluster
  import opened RaftRefinement
  import opened RaftSimulation
  import opened RaftSnapshotSim
  import opened RaftTornSim
  import C = Consensus
  import P = ConsensusProofs

  // ------------------------------------------------------------------- steps

  lemma Named(h: C.State, v: NodeId)
    requires v in h.servers
    requires C.Inv(h)
    ensures v != NOBODY
  {
  }

  lemma RelatedNode(c: Cluster, h: C.State, v: NodeId)
    requires Rel(c, h) && v in c.nodes
    ensures C.Inv(h) && v in c.disks && Tied(c.nodes[v], c.disks[v], h, v)
  {
  }

  lemma RelatedMessage(c: Cluster, h: C.State, m: Message)
    requires Rel(c, h) && m in c.messages
    ensures m.src in h.servers && MessageRel(h, m)
  {
  }

  /** The outcome of an event at `v` follows from `h`, and so do its messages. */
  ghost predicate Explains(h: C.State, h': C.State, v: NodeId, out: Outcome) {
    Trails(h, h', v, out.node, out.disk) && Justified(h', v, out.sent)
  }

  lemma NothingSent(h: C.State, v: NodeId)
    ensures Justified(h, v, {})
  {
  }

  lemma VoteEventFollows(c: Cluster, config: Config, e: Event, h: C.State) returns (h': C.State)
    requires Enabled(c, e) && (e.DeliverVoteRequest? || e.DeliverVoteReply?) && Rel(c, h)
    ensures Explains(h, h', Place(e), Act(c, config, e))
  {
    hide Rel, C.Inv, P.Grows, Tied, VoteReplyRel, VoteRequestRel, OnVoteReply, HandleRequestVote;
    var v, m := Place(e), e.message;
    RelatedNode(c, h, v);
    RelatedMessage(c, h, m);
    var n, d := c.nodes[v], c.disks[v];
    Named(h, m.src);
    match e
    case DeliverVoteRequest(_, saveTerm, saveVote) =>
      h' := VoteRequestTrails(n, d, h, v, m.src, m.vote, saveTerm, saveVote);
    case DeliverVoteReply(_, save) =>
      h' := VoteReplyTrails(n, d, h, v, config, m.src, m.vote, m.voted, save);
  }

  lemma AppendEventFollows(c: Cluster, config: Config, e: Event, h: C.State) returns (h': C.State)
    requires Enabled(c, e) && (e.DeliverAppend? || e.DeliverAppendReply?) && Rel(c, h)
    ensures Explains(h, h', Place(e), Act(c, config, e))
  {
    hide Rel, C.Inv, P.Grows, Tied, AppendRel, StartElection, Broadcast, Propose, HandleRequestVote, OnVoteReply,
         HandleAppendEntries, OnAppendReply, HandleInstallSnapshot, OnSnapshotReply, CreateSnapshot, ReadCalls, NewNode;
    var v, m := Place(e), e.message;
    RelatedNode(c, h, v);
    RelatedMessage(c, h, m);
    var n, d := c.nodes[v], c.disks[v];
    match e
    case DeliverAppend(_, saveTerm, saveLog) =>
      h' := AppendTrails(n, d, h, v, m.src, m.append, saveTerm, saveLog);
      AppendForward(h, h', m.src, m.append);
    case DeliverAppendReply(_, save) =>
      h' := AppendReplyTrails(n, d, h, v, m.src, m.append, m.appended, save);
  }

  lemma SnapshotEventFollows(c: Cluster, config: Config, e: Event, h: C.State) returns (h': C.State)
    requires Enabled(c, e) && (e.DeliverSnapshot? || e.DeliverSnapshotReply?) && Rel(c, h)
    ensures Explains(h, h', Place(e), Act(c, config, e))
  {
    hide Rel, C.Inv, P.Grows, Tied, InstallRel, StartElection, Broadcast, Propose, HandleRequestVote, OnVoteReply,
         HandleAppendEntries, OnAppendReply, HandleInstallSnapshot, OnSnapshotReply, CreateSnapshot, ReadCalls, NewNode;
    var v, m := Place(e), e.message;
    RelatedNode(c, h, v);
    RelatedMessage(c, h, m);
    var n, d := c.nodes[v], c.disks[v];
    match e
    case DeliverSnapshot(_, saveTerm, saveSnapshot, saveState) =>
      h' := InstallTrails(n, d, h, v, config, m.src, m.install, m.snapshot, saveTerm, saveSnapshot, saveState);
      InstallForward(h, h', m.src, m.install, m.snapshot);
    case DeliverSnapshotReply(_, save) =>
      h' := SnapshotReplyTrails(n, d, h, v, config, m.src, m.install, m.snapshot, m.installed, save);
  }

  predicate Local(e: Event) {
    match e
    case Timeout(_, _) => true
    case Heartbeat(_) => true
    case Command(_, _, _) => true
    case TakeSnapshot(_, _, _, _, _) => true
    case Applied(_, _) => true
    case Restored(_, _) => true
    case Restart(_) => true
    case BeginRead(_, _) => true
    case _ => false
  }

  lemma TimeoutFollows(c: Cluster, config: Config, v: NodeId, save: bool, h: C.State) returns (h': C.State)
    requires Enabled(c, Timeout(v, save)) && Rel(c, h)
    ensures Explains(h, h', v, Act(c, config, Timeout(v, save)))
  {
    hide Rel, C.Inv, Tied, Trails, Justified, StartElection, Broadcast, Propose, CreateSnapshot, ReadCalls, NewNode,
         Reloaded;
    RelatedNode(c, h, v);
    var n, d := c.nodes[v], c.disks[v];
    h' := ElectionTrails(n, d, h, v, config, save);
  }

  lemma HeartbeatFollows(c: Cluster, config: Config, v: NodeId, h: C.State) returns (h': C.State)
    requires Enabled(c, Heartbeat(v)) && Rel(c, h)
    ensures Explains(h, h', v, Act(c, config, Heartbeat(v)))
  {
    hide Rel, C.Inv, Tied, Trails, Justified, StartElection, Broadcast, Propose, CreateSnapshot, ReadCalls, NewNode,
         Reloaded;
    RelatedNode(c, h, v);
    var n, d := c.nodes[v], c.disks[v];
    LeaderIsWhole(n, d, h, v);
    h' := BroadcastFollows(n, d, h, v, config);
    FollowsTrails(h, h', v, Broadcast(n, d, config).node, d);
  }

  lemma CommandFollows(c: Cluster, config: Config, v: NodeId, command: Bytes, save: bool, h: C.State)
      returns (h': C.State)
    requires Enabled(c, Command(v, command, save)) && Rel(c, h)
    ensures Explains(h, h', v, Act(c, config, Command(v, command, save)))
  {
    hide Rel, C.Inv, Tied, Trails, Justified, StartElection, Broadcast, Propose, CreateSnapshot, ReadCalls, NewNode,
         Reloaded;
    RelatedNode(c, h, v);
    var n, d := c.nodes[v], c.disks[v];
    h' := ProposeTrails(n, d, h, v, config, command, save);
  }

  lemma SnapshotFollows(c: Cluster, config: Config, v: NodeId, index: nat, data: Bytes, saveSnapshot: bool,
                        saveState: bool, h: C.State) returns (h': C.State)
    requires Enabled(c, TakeSnapshot(v, index, data, saveSnapshot, saveState)) && Rel(c, h)
    ensures Explains(h, h', v, Act(c, config, TakeSnapshot(v, index, data, saveSnapshot, saveState)))
  {
    hide Rel, C.Inv, Tied, Trails, Justified, StartElection, Broadcast, Propose, CreateSnapshot, ReadCalls, NewNode,
         Reloaded;
    RelatedNode(c, h, v);
    var n, d := c.nodes[v], c.disks[v];
    h' := TakeSnapshotTrails(n, d, h, v, index, data, saveSnapshot && |data| <= MAX_SNAPSHOT_DATA, saveState);
    NothingSent(h', v);
  }

  lemma AppliedFollows(c: Cluster, config: Config, v: NodeId, index: nat, h: C.State) returns (h': C.State)
    requires Enabled(c, Applied(v, index)) && Rel(c, h)
    ensures Explains(h, h', v, Act(c, config, Applied(v, index)))
  {
    hide Rel, C.Inv, Tied, Trails, Justified, StartElection, Broadcast, Propose, CreateSnapshot, ReadCalls, NewNode,
         Reloaded;
    RelatedNode(c, h, v);
    var n, d := c.nodes[v], c.disks[v];
    h' := h;
    NothingSent(h, v);
    LeaderIsWhole(n, d, h, v);
    ProgressTrails(n, d, h, v, MarkApplied(n, index));
  }

  lemma RestoredFollows(c: Cluster, config: Config, v: NodeId, index: nat, h: C.State) returns (h': C.State)
    requires Enabled(c, Restored(v, index)) && Rel(c, h)
    ensures Explains(h, h', v, Act(c, config, Restored(v, index)))
  {
    hide Rel, C.Inv, Tied, Trails, Justified, StartElection, Broadcast, Propose, CreateSnapshot, ReadCalls, NewNode,
         Reloaded;
    RelatedNode(c, h, v);
    var n, d := c.nodes[v], c.disks[v];
    h' := h;
    NothingSent(h, v);
    LeaderIsWhole(n, d, h, v);
    ProgressTrails(n, d, h, v, ConfirmSnapshotRestored(n, index));
  }

  lemma RestartedFollows(c: Cluster, config: Config, v: NodeId, h: C.State) returns (h': C.State)
    requires Enabled(c, Event.Restart(v)) && Rel(c, h)
    ensures Explains(h, h', v, Act(c, config, Event.Restart(v)))
  {
    hide Rel, C.Inv, Tied, Trails, Justified, StartElection, Broadcast, Propose, CreateSnapshot, ReadCalls, NewNode,
         Reloaded;
    RelatedNode(c, h, v);
    var n, d := c.nodes[v], c.disks[v];
    h' := RestartFollows(n, d, h, v);
    NothingSent(h', v);
  }

  lemma BeginReadFollows(c: Cluster, config: Config, v: NodeId, read: nat, h: C.State) returns (h': C.State)
    requires Enabled(c, BeginRead(v, read)) && Rel(c, h)
    ensures Explains(h, h', v, Act(c, config, BeginRead(v, read)))
  {
    hide Rel, C.Inv, Tied, Trails, Justified, StartElection, Broadcast, Propose, CreateSnapshot, ReadCalls, NewNode,
         Reloaded;
    RelatedNode(c, h, v);
    var n, d := c.nodes[v], c.disks[v];
    h' := h;
    LeaderIsWhole(n, d, h, v);
    FollowsItself(n, d, h, v);
    FollowsTrails(h, h, v, n, d);
    ReadCallsJustified(n, d, h, v, read);
  }

  lemma LocalEventFollows(c: Cluster, config: Config, e: Event, h: C.State) returns (h': C.State)
    requires Enabled(c, e) && Local(e) && Rel(c, h)
    ensures Explains(h, h', Place(e), Act(c, config, e))
  {
    hide Rel, Enabled, Act, Explains;
    match e
    case Timeout(v, save) => h' := TimeoutFollows(c, config, v, save, h);
    case Heartbeat(v) => h' := HeartbeatFollows(c, config, v, h);
    case Command(v, command, save) => h' := CommandFollows(c, config, v, command, save, h);
    case TakeSnapshot(v, index, data, saveSnapshot, saveState) =>
      h' := SnapshotFollows(c, config, v, index, data, saveSnapshot, saveState, h);
    case Applied(v, index) => h' := AppliedFollows(c, config, v, index, h);
    case Restored(v, index) => h' := RestoredFollows(c, config, v, index, h);
    case Restart(v) => h' := RestartedFollows(c, config, v, h);
    case BeginRead(v, read) => h' := BeginReadFollows(c, config, v, read, h);
  }

  lemma ActFollows(c: Cluster, config: Config, e: Event, h: C.State) returns (h': C.State)
    requires Enabled(c, e) && Rel(c, h)
    ensures Explains(h, h', Place(e), Act(c, config, e))
  {
    hide Rel, Act, Explains, Enabled;
    if Local(e) {
      h' := LocalEventFollows(c, config, e, h);
    } else if e.DeliverVoteRequest? || e.DeliverVoteReply? {
      h' := VoteEventFollows(c, config, e, h);
    } else if e.DeliverAppend? || e.DeliverAppendReply? {
      h' := AppendEventFollows(c, config, e, h);
    } else {
      h' := SnapshotEventFollows(c, config, e, h);
    }
  }

  /** Every event of a cluster keeps it related to a history that only grows. */
  lemma StepKeeps(c: Cluster, config: Config, e: Event, c': Cluster, h: C.State) returns (h': C.State)
    requires Next(c, config, e, c') && Rel(c, h)
    ensures Rel(c', h') && P.Grows(h, h')
  {
    hide C.Inv, P.Grows, Tied, MessageRel, Act, ReadsAfter;
    var v, out := Place(e), Act(c, config, e);
    h' := ActFollows(c, config, e, h);
    NodesForward(c, c', h, h', v);
    MessagesForward(c.messages, c'.messages, h, h');
  }
}
