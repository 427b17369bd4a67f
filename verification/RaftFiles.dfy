/** A node's own files, as bytes: in every state of every run they can be read
    back, and give the node that was there. */
module RaftFiles {
  import opened Options
  import opened LittleEndian
  import opened RaftTypes
  import opened RaftMessages
  import opened RaftLog
  import opened RaftHandlers
  import opened RaftCluster
  import opened RaftRefinement
  import opened RaftReplicationSim
  import opened RaftSnapshotSim
  import opened RaftTornSim
  import opened RaftRuns
  import opened RaftSafety
  import F = RaftFormats
  import C = Consensus
  import P = ConsensusProofs

  // ------------------------------------------------ what the state file holds

  /** What a node saves. */
  function StateOf(n: Node): PersistentState
    requires ValidNode(n)
  {
    PersistentState(n.currentTerm, n.votedFor, n.log[1..])
  }

  /** The state file is as before, or holds what the node is now. */
  predicate KeepsOrSaves(d: Disk, n': Node, d': Disk) {
    d'.state == d.state || (ValidNode(n') && d'.state == Some(StateOf(n')))
  }

  lemma ElectionSaves(n: Node, d: Disk, config: Config, save: bool)
    requires ValidNode(n)
    ensures var out := StartElection(n, d, config, save);
            KeepsOrSaves(d, out.node, out.disk) && out.node.log == n.log && out.disk.snapshot == d.snapshot
  {
    hide PeerCall, VoteCall, LastIndex;
    AdvanceKeeps(n);
  }

  lemma AdvanceKeeps(n: Node)
    requires ValidNode(n)
    ensures var n' := AdvanceCommit(n); ValidNode(n') && StateOf(n') == StateOf(n) && n'.log == n.log
  {
  }

  lemma LeadSaves(n: Node, d: Disk, config: Config)
    requires ValidNode(n)
    ensures var out := BecomeLeader(n, d, config);
            out.disk == d && ValidNode(out.node) && StateOf(out.node) == StateOf(n) && out.node.log == n.log
  {
    hide PeerCall;
  }

  lemma VoteSaves(n: Node, d: Disk, args: RequestVoteArgs, saveTerm: bool, saveVote: bool)
    requires ValidNode(n)
    ensures var (n', d', _) := HandleRequestVote(n, d, args, saveTerm, saveVote);
            KeepsOrSaves(d, n', d') && n'.log == n.log && d'.snapshot == d.snapshot
  {
    hide LogIsUpToDate;
  }

  lemma AppendSaves(n: Node, d: Disk, args: AppendEntriesArgs, saveTerm: bool, saveLog: bool)
    requires ValidNode(n)
    ensures var (n', d', _) := HandleAppendEntries(n, d, args, saveTerm, saveLog); KeepsOrSaves(d, n', d')
  {
    hide CommonTerms, Renumbered;
  }

  lemma VoteReplySaves(n: Node, d: Disk, config: Config, peer: NodeId, args: RequestVoteArgs, reply: RequestVoteReply,
                       save: bool)
    requires ValidNode(n)
    ensures var out := OnVoteReply(n, d, config, peer, args, reply, save);
            KeepsOrSaves(d, out.node, out.disk) && out.node.log == n.log && out.disk.snapshot == d.snapshot
  {
    hide PeerCall, BecomeLeader;
    LeadSaves(n.(votesReceived := n.votesReceived + {peer}), d, config);
  }

  lemma AppendReplySaves(n: Node, d: Disk, peer: NodeId, args: AppendEntriesArgs, reply: AppendEntriesReply, save: bool)
    requires ValidNode(n)
    ensures var (n', d', _) := OnAppendReply(n, d, peer, args, reply, save);
            KeepsOrSaves(d, n', d') && n'.log == n.log && d'.snapshot == d.snapshot
  {
    hide AdvanceCommit;
    AdvanceKeeps(Matched(n, peer, args.prevIndex + |args.entries|));
  }

  lemma SnapshotReplySaves(n: Node, d: Disk, config: Config, peer: NodeId, args: InstallSnapshotArgs,
                           snapshot: Snapshot, reply: InstallSnapshotReply, save: bool)
    requires ValidNode(n)
    ensures var out := OnSnapshotReply(n, d, config, peer, args, snapshot, reply, save);
            KeepsOrSaves(d, out.node, out.disk) && out.node.log == n.log && out.disk.snapshot == d.snapshot
  {
    hide AdvanceCommit, ChunkCall;
    AdvanceKeeps(Matched(n, peer, snapshot.index));
  }

  lemma InstallSaves(n: Node, d: Disk, snapshot: Snapshot, saveSnapshot: bool, saveState: bool)
    requires ValidNode(n)
    ensures var (n', d', _) := Install(n, d, snapshot, saveSnapshot, saveState);
            && ValidNode(n')
            && if saveSnapshot && saveState then d'.state == Some(StateOf(n')) else d'.state == d.state && n' == n
  {
    hide TermAt;
  }

  lemma SnapshotSaves(n: Node, d: Disk, config: Config, args: InstallSnapshotArgs, saveTerm: bool, saveSnapshot: bool,
                      saveState: bool)
    requires ValidNode(n)
    ensures var (n', d', _) := HandleInstallSnapshot(n, d, config, args, saveTerm, saveSnapshot, saveState);
            KeepsOrSaves(d, n', d')
  {
    hide Install, ReceiveChunk;
    var (n1, d1, _) := Recognize(n, d, args.term, saveTerm);
    var n2 := n1.(role := Follower, leaderId := args.leader);
    var (transfer, accepted, payload) :=
      if args.chunked then ReceiveChunk(n2.chunkTransfer, config, args) else (None, true, Some(args.data));
    if payload.Some? {
      InstallSaves(n2.(chunkTransfer := None), d1, Snapshot(args.lastIndex, args.lastTerm, payload.value), saveSnapshot,
                   saveState);
    }
  }

  lemma TakeSaves(n: Node, d: Disk, index: nat, data: Bytes, saveSnapshot: bool, saveState: bool)
    requires ValidNode(n)
    ensures var (n', d') := CreateSnapshot(n, d, index, data, saveSnapshot, saveState); KeepsOrSaves(d, n', d')
  {
    hide TermAt;
  }

  lemma RequestSaves(c: Cluster, config: Config, e: Event)
    requires Enabled(c, e) && (e.DeliverVoteRequest? || e.DeliverAppend? || e.DeliverSnapshot?)
    ensures var out := Act(c, config, e); KeepsOrSaves(c.disks[Place(e)], out.node, out.disk)
  {
    hide KeepsOrSaves, StartElection, Broadcast, Propose, HandleRequestVote, OnVoteReply, HandleAppendEntries,
         OnAppendReply, HandleInstallSnapshot,
         OnSnapshotReply, CreateSnapshot, ReadCalls, NewNode, MarkApplied, ConfirmSnapshotRestored;
    var n, d := c.nodes[Place(e)], c.disks[Place(e)];
    match e
    case DeliverVoteRequest(m, saveTerm, saveVote) => VoteSaves(n, d, m.vote, saveTerm, saveVote);
    case DeliverAppend(m, saveTerm, saveLog) => AppendSaves(n, d, m.append, saveTerm, saveLog);
    case DeliverSnapshot(m, saveTerm, saveSnapshot, saveState) => SnapshotSaves(n, d, config, m.install, saveTerm,
                                                                                saveSnapshot, saveState);
  }

  lemma ReplySaves(c: Cluster, config: Config, e: Event)
    requires Enabled(c, e) && (e.DeliverVoteReply? || e.DeliverAppendReply? || e.DeliverSnapshotReply?)
    ensures var out := Act(c, config, e); KeepsOrSaves(c.disks[Place(e)], out.node, out.disk)
  {
    hide KeepsOrSaves, StartElection, Broadcast, Propose, HandleRequestVote, OnVoteReply, HandleAppendEntries,
         OnAppendReply, HandleInstallSnapshot,
         OnSnapshotReply, CreateSnapshot, ReadCalls, NewNode, MarkApplied, ConfirmSnapshotRestored;
    var n, d := c.nodes[Place(e)], c.disks[Place(e)];
    match e
    case DeliverVoteReply(m, save) => VoteReplySaves(n, d, config, m.src, m.vote, m.voted, save);
    case DeliverAppendReply(m, save) => AppendReplySaves(n, d, m.src, m.append, m.appended, save);
    case DeliverSnapshotReply(m, save) => SnapshotReplySaves(n, d, config, m.src, m.install, m.snapshot, m.installed,
                                                             save);
  }

  /** Whatever happens at a node, its state file is left alone or brought up to
      date with the node. */
  lemma ActSaves(c: Cluster, config: Config, e: Event)
    requires Enabled(c, e)
    ensures var out := Act(c, config, e); KeepsOrSaves(c.disks[Place(e)], out.node, out.disk)
  {
    hide KeepsOrSaves, Enabled, Act;
    if Local(e) {
      LocalSaves(c, config, e);
    } else if e.DeliverVoteRequest? || e.DeliverAppend? || e.DeliverSnapshot? {
      RequestSaves(c, config, e);
    } else {
      ReplySaves(c, config, e);
    }
  }

  lemma LocalSaves(c: Cluster, config: Config, e: Event)
    requires Enabled(c, e) && Local(e)
    ensures var out := Act(c, config, e); KeepsOrSaves(c.disks[Place(e)], out.node, out.disk)
  {
    hide KeepsOrSaves, StartElection, Broadcast, Propose, HandleRequestVote, OnVoteReply, HandleAppendEntries,
         OnAppendReply, HandleInstallSnapshot,
         OnSnapshotReply, CreateSnapshot, ReadCalls, NewNode, MarkApplied, ConfirmSnapshotRestored;
    var n, d := c.nodes[Place(e)], c.disks[Place(e)];
    match e
    case Timeout(_, save) => ElectionSaves(n, d, config, save);
    case Heartbeat(_) => BroadcastSaves(n, d, config);
    case Command(_, command, save) => ProposeSaves(n, d, config, command, save);
    case TakeSnapshot(_, index, data, saveSnapshot, saveState) =>
      TakeSaves(n, d, index, data, saveSnapshot && |data| <= MAX_SNAPSHOT_DATA, saveState);
    case Applied(_, index) => Untouched(d, MarkApplied(n, index));
    case Restored(_, index) => Untouched(d, ConfirmSnapshotRestored(n, index));
    case Restart(v) => Untouched(d, NewNode(v, n.peers, d).value);
    case BeginRead(_, _) => Untouched(d, n);
  }

  lemma Untouched(d: Disk, n: Node)
    ensures KeepsOrSaves(d, n, d)
  {
  }

  lemma BroadcastSaves(n: Node, d: Disk, config: Config)
    requires ValidNode(n)
    ensures var out := Broadcast(n, d, config);
            KeepsOrSaves(d, out.node, out.disk) && out.node.log == n.log && out.disk.snapshot == d.snapshot
  {
    hide PeerCall;
  }

  lemma ProposeSaves(n: Node, d: Disk, config: Config, command: Bytes, save: bool)
    requires ValidNode(n)
    ensures var out := Propose(n, d, config, command, save); KeepsOrSaves(d, out.node, out.disk)
  {
    hide PeerCall, AdvanceCommit;
    var n' := n.(log := n.log + [Entry(LastIndex(n.log) + 1, n.currentTerm, command)]);
    AdvanceKeeps(n');
  }

  // ---------------------------------------------------------- saved in order

  predicate DiskLoadable(d: Disk) {
    d.state.Some? ==> F.Loadable(d.state.value)
  }

  predicate DisksLoadable(c: Cluster) {
    forall v :: v in c.disks ==> DiskLoadable(c.disks[v])
  }

  lemma SuffixInOrder(l: Slice, full: seq<Entry>, term: nat)
    requires EndOf(l, full) && Numbered(full)
    requires forall i :: 0 < i < |full| ==> full[i - 1].term <= full[i].term
    requires forall i :: 0 <= i < |full| ==> full[i].term <= term
    ensures F.InOrder(l[1..]) && (|l| > 1 ==> l[|l| - 1].term <= term)
  {
    var log, b := l[1..], Boundary(l);
    assert forall i :: 0 <= i < |log| ==> log[i] == full[b..][i];
    forall i | 0 < i < |log|
      ensures log[i - 1].term <= log[i].term
    {
      assert full[b + i - 1].term <= full[b + i].term;
    }
    if |l| > 1 {
      assert l[|l| - 1] == log[|log| - 1];
    }
  }

  /** A node's log above its boundary has no gaps, and its terms do not
      decrease and do not pass the node's own. */
  lemma NodeLoadable(n: Node, d: Disk, h: C.State, v: NodeId)
    requires Tied(n, d, h, v)
    requires C.Inv(h)
    ensures ValidNode(n) && F.Loadable(StateOf(n))
  {
    hide C.Inv, EndOf, F.InOrder, C.Grounded, C.ReignsGrounded, DiskRel, SnapshotRel, PeersOf, Tied;
    TiedEnd(n, d, h, v);
    TiedSuffix(n, d, h, v);
    var s := h.servers[v];
    InvParts(h, v);
    forall i | 0 < i < |s.log|
      ensures s.log[i - 1].term <= s.log[i].term
    {
      P.GroundedTerms(h, s.log, i - 1, i);
    }
    SuffixInOrder(n.log, s.log, s.term);
    assert n.log[1..] != [] ==> n.log[1..][|n.log| - 2] == n.log[|n.log| - 1];
  }

  /** Every node's log is without gaps, in every state of every run. */
  lemma LogsWellFormed(config: Config, run: seq<Cluster>, events: seq<Event>, i: nat, v: NodeId)
    requires i < |run| && v in run[i].nodes
    requires IsRun(config, run, events)
    ensures WellFormed(run[i].nodes[v].log)
  {
    hide IsRun, Traced, Rel, C.Inv, Tied;
    var hs := RunTraced(config, run, events);
    TracedAt(run, hs, i);
    RelatedNode(run[i], hs[i], v);
    NodeWellFormed(run[i].nodes[v], run[i].disks[v], hs[i], v);
  }

  lemma NodeWellFormed(n: Node, d: Disk, h: C.State, v: NodeId)
    requires Tied(n, d, h, v)
    requires C.Inv(h)
    ensures WellFormed(n.log)
  {
    hide C.Inv, DiskRel, Tied;
    TiedEnd(n, d, h, v);
    var full, b := h.servers[v].log, Boundary(n.log);
    forall i | 0 < i < |n.log|
      ensures n.log[i].index == b + i
    {
      assert n.log[i] == n.log[1..][i - 1] == full[b..][i - 1];
    }
  }

  lemma InvParts(h: C.State, v: NodeId)
    requires C.Inv(h) && v in h.servers
    ensures C.ReignsGrounded(h) && C.Grounded(h.reigns, h.servers[v].log)
    ensures C.TermsAtMost(h.servers[v].log, h.servers[v].term)
    ensures Numbered(h.servers[v].log)
  {
  }

  lemma StepLoadable(c: Cluster, config: Config, e: Event, h': C.State)
    requires Enabled(c, e)
    requires DisksLoadable(c)
    requires Rel(Step(c, config, e), h')
    ensures DisksLoadable(Step(c, config, e))
  {
    hide C.Inv, Tied, F.Loadable, Act, ReadsAfter;
    var c', u := Step(c, config, e), Place(e);
    ActSaves(c, config, e);
    RelatedNode(c', h', u);
    NodeLoadable(c'.nodes[u], c'.disks[u], h', u);
  }

  lemma {:induction false} RunLoadable(config: Config, run: seq<Cluster>, events: seq<Event>, hs: seq<C.State>, i: nat)
    requires i < |run|
    requires Traced(run, hs)
    requires IsRun(config, run, events)
    ensures DisksLoadable(run[i])
  {
    hide DisksLoadable, Traced, Init, Step, Enabled;
    if i == 0 {
      InitLoadable(run[0]);
    } else {
      assert Next(run[i - 1], config, events[i - 1], run[i]);
      RunLoadable(config, run, events, hs, i - 1);
      TracedAt(run, hs, i);
      StepLoadable(run[i - 1], config, events[i - 1], hs[i]);
    }
  }

  lemma InitLoadable(c: Cluster)
    requires Init(c)
    ensures DisksLoadable(c)
  {
  }

  // ---------------------------------------------------------- files as bytes

  datatype Files = Files(state: Option<Bytes>, snapshot: Option<Bytes>)

  /** The numbers and names of the disk are ones that the program's types hold,
      and every field is within the limits that saving checks. */
  predicate Storable(d: Disk) {
    && (d.state.Some? ==> F.StateTyped(d.state.value) && F.StateFits(d.state.value))
    && (d.snapshot.Some? ==>
          var s := d.snapshot.value; s.index < TWO64 && s.term < TWO64 && |s.data| <= F.MAX_SNAPSHOT_DATA_SIZE)
  }

  function Written(d: Disk, crc: Bytes -> U32): Files
    requires Storable(d)
  {
    Files(if d.state.Some? then F.EncodeState(d.state.value, crc) else None,
          if d.snapshot.Some? then F.EncodeSnapshot(d.snapshot.value, crc) else None)
  }

  /** A node from its files: a file that cannot be decoded stops it. */
  function OpenFiles(id: NodeId, peers: seq<NodeId>, f: Files, crc: Bytes -> U32): Option<Node> {
    var state := if f.state.Some? then F.DecodeState(f.state.value, crc) else None;
    var snapshot := if f.snapshot.Some? then F.DecodeSnapshot(f.snapshot.value, crc) else None;
    if (f.state.Some? && state.None?) || (f.snapshot.Some? && snapshot.None?) then None
    else NewNode(id, peers, Disk(state, snapshot))
  }

  /** The state file is not larger than loading takes. */
  predicate NotTooLarge(d: Disk) {
    d.state.Some? ==> F.StateSize(d.state.value) <= F.MAX_STATE_SIZE
  }

  lemma OpensWhatWasWritten(id: NodeId, peers: seq<NodeId>, d: Disk, crc: Bytes -> U32)
    requires Storable(d) && DiskLoadable(d)
    ensures OpenFiles(id, peers, Written(d, crc), crc) == if NotTooLarge(d) then NewNode(id, peers, d) else None
  {
    hide F.EncodeState, F.DecodeState, F.EncodeSnapshot, F.DecodeSnapshot, NewNode, F.StateTyped, F.Loadable,
         F.StateSize;
    if d.state.Some? {
      F.StateRoundTrip(d.state.value, crc);
      EncodesState(d.state.value, crc);
    }
    if d.snapshot.Some? {
      F.SnapshotRoundTrip(d.snapshot.value, crc);
      EncodesSnapshot(d.snapshot.value, crc);
    }
  }

  lemma EncodesState(s: PersistentState, crc: Bytes -> U32)
    requires F.StateTyped(s) && F.StateFits(s)
    ensures F.EncodeState(s, crc).Some?
  {
  }

  lemma EncodesSnapshot(s: Snapshot, crc: Bytes -> U32)
    requires |s.data| <= F.MAX_SNAPSHOT_DATA_SIZE
    ensures F.EncodeSnapshot(s, crc).Some?
  {
  }

  // ------------------------------------------------ the snapshot and the log

  function SnapshotTerm(d: Disk): nat {
    if d.snapshot.Some? then d.snapshot.value.term else 0
  }

  /** The saved snapshot is of a position that the log holds. */
  predicate SnapshotFits(n: Node, d: Disk)
    requires ValidNode(n)
  {
    TermAt(n.log, SnapshotIndex(d)) == Some(SnapshotTerm(d))
  }

  lemma SameFits(n: Node, d: Disk, n': Node, d': Disk)
    requires ValidNode(n) && SnapshotFits(n, d) && n'.log == n.log && d'.snapshot == d.snapshot
    ensures ValidNode(n') && SnapshotFits(n', d')
  {
  }

  lemma ExtendedFits(n: Node, d: Disk, n': Node, d': Disk, e: Entry)
    requires ValidNode(n) && SnapshotFits(n, d) && n'.log == n.log + [e] && d'.snapshot == d.snapshot
    ensures ValidNode(n') && SnapshotFits(n', d')
  {
  }

  /** A snapshot that fits above the boundary is of an entry that every leader
      of this term or a later one has. */
  lemma FittingIsShared(n: Node, d: Disk, h: C.State, v: NodeId, t: nat)
    requires Tied(n, d, h, v) && t in h.reigns && t >= n.currentTerm
    requires ValidNode(n) && SnapshotFits(n, d) && Boundary(n.log) < SnapshotIndex(d)
    requires C.Inv(h)
    ensures NodeRel(n, d, h, v) && SnapshotIndex(d) <= |h.reigns[t].log|
    ensures EntryAt(n.log, SnapshotIndex(d)) == Some(h.reigns[t].log[SnapshotIndex(d) - 1])
  {
    hide C.Inv, C.Witnessed, C.Grounded, C.ReignsKeep, DiskRel, NodeRel, PeersOf, EndOf;
    TiedSuffix(n, d, h, v);
    TiedEnd(n, d, h, v);
    var x, s, leader := SnapshotIndex(d), h.servers[v], h.reigns[t].log;
    SnapshotWithin(d, h, s);
    InvGrounded(h, v, t);
    P.WitnessedWithin(h, x, s.term, t);
    ShownAbove(n.log, s.log, x);
    assert h.chosen[..x][x - 1] == leader[x - 1];
    P.GroundedMatch(h.reigns, s.log, leader, x - 1);
    assert s.log[..x][x - 1] == leader[..x][x - 1];
    assert h.chosen[..x] == leader[..x];
    HolderIsWhole(n, d, h, v, x);
  }

  /** A log that has a chosen prefix beyond its boundary is not torn. */
  lemma HolderIsWhole(n: Node, d: Disk, h: C.State, v: NodeId, x: nat)
    requires Tied(n, d, h, v) && v in h.servers && ValidNode(n) && Boundary(n.log) <= x <= |h.chosen|
    requires h.chosen[..x] <= h.servers[v].log
    ensures NodeRel(n, d, h, v)
  {
    hide NodeRel, C.Witnessed, DiskRel, SnapshotRel, PeersOf;
    assert h.chosen[..Boundary(n.log)] == h.chosen[..x][..Boundary(n.log)];
  }

  lemma AppendFits(n: Node, d: Disk, h: C.State, v: NodeId, src: NodeId, args: AppendEntriesArgs, saveTerm: bool,
                   saveLog: bool)
    requires Tied(n, d, h, v) && AppendRel(h, src, args) && ValidNode(n) && SnapshotFits(n, d)
    requires C.Inv(h)
    ensures var (n', d', _) := HandleAppendEntries(n, d, args, saveTerm, saveLog); ValidNode(n') && SnapshotFits(n', d')
  {
    hide C.Inv, C.Witnessed, C.Grounded, C.ReignsKeep, Tied, AppendRel, DiskRel, Represents, HandleAppendEntries,
         EntryAt;
    AppendKeepsRest(n, d, args, saveTerm, saveLog);
    TiedEnd(n, d, h, v);
    DiskBoundary(n, d);
    if Boundary(n.log) < SnapshotIndex(d) {
      if args.term < n.currentTerm {
        StaleIgnored(n, d, args, saveTerm, saveLog);
      } else {
        AppendReigns(h, src, args);
        FittingIsShared(n, d, h, v, args.term);
        WholeLog(n, d, h, v);
        InvGrounded(h, v, args.term);
        AppendKeepsShared(n, d, h.servers[v].log, h, src, args, saveTerm, saveLog, SnapshotIndex(d));
        EntryTerm(n.log, SnapshotIndex(d));
        EntryTerm(HandleAppendEntries(n, d, args, saveTerm, saveLog).0.log, SnapshotIndex(d));
      }
    }
  }

  lemma EntryTerm(l: Slice, x: nat)
    requires |l| > 0 && x > Boundary(l)
    ensures EntryAt(l, x).Some? ==> TermAt(l, x) == Some(EntryAt(l, x).value.term)
    ensures EntryAt(l, x).None? ==> TermAt(l, x) == None
  {
  }

  lemma AppendKeepsRest(n: Node, d: Disk, args: AppendEntriesArgs, saveTerm: bool, saveLog: bool)
    requires ValidNode(n)
    ensures var (n', d', _) := HandleAppendEntries(n, d, args, saveTerm, saveLog);
            ValidNode(n') && n'.log[0] == n.log[0] && d'.snapshot == d.snapshot
  {
    hide CommonTerms, Renumbered;
  }

  /** Whatever becomes of the two saves of a snapshot, it fits the node's log
      afterwards. */
  lemma TakenFits(n: Node, d: Disk, index: nat, data: Bytes, saveSnapshot: bool, saveState: bool)
    requires ValidNode(n) && SnapshotFits(n, d)
    ensures var (n', d') := CreateSnapshot(n, d, index, data, saveSnapshot, saveState);
            ValidNode(n') && SnapshotFits(n', d')
  {
  }

  lemma InstalledFits(n: Node, d: Disk, snapshot: Snapshot, saveSnapshot: bool, saveState: bool)
    requires ValidNode(n) && SnapshotFits(n, d) && !(saveSnapshot && !saveState)
    ensures var (n', d', _) := Install(n, d, snapshot, saveSnapshot, saveState); ValidNode(n') && SnapshotFits(n', d')
  {
  }

  lemma InstallFits(n: Node, d: Disk, config: Config, args: InstallSnapshotArgs, saveTerm: bool, saveSnapshot: bool,
                    saveState: bool)
    requires ValidNode(n) && SnapshotFits(n, d) && !(saveSnapshot && !saveState)
    ensures var (n', d', _) := HandleInstallSnapshot(n, d, config, args, saveTerm, saveSnapshot, saveState);
            ValidNode(n') && SnapshotFits(n', d')
  {
    hide ReceiveChunk, Install, SnapshotFits;
    var (n', d', _) := HandleInstallSnapshot(n, d, config, args, saveTerm, saveSnapshot, saveState);
    var (n1, d1, _) := Recognize(n, d, args.term, saveTerm);
    var n2 := n1.(role := Follower, leaderId := args.leader, chunkTransfer := None);
    SameFits(n, d, n2, d1);
    var (_, _, payload) := if args.chunked then ReceiveChunk(n1.chunkTransfer, config, args)
                           else (None, true, Some(args.data));
    if payload.Some? {
      InstalledFits(n2, d1, Snapshot(args.lastIndex, args.lastTerm, payload.value), saveSnapshot, saveState);
    }
    if n'.log == n.log && d'.snapshot == d.snapshot {
      SameFits(n, d, n', d');
    }
  }

  lemma ReloadedFits(id: NodeId, peers: seq<NodeId>, d: Disk)
    ensures var n := NewNode(id, peers, d); n.Some? ==> ValidNode(n.value) && SnapshotFits(n.value, d)
  {
    hide Above;
  }

  /** An installation at `v` that loses its second save. */
  predicate Tears(e: Event, v: NodeId) {
    e.DeliverSnapshot? && e.message.dst == v && e.saveSnapshot && !e.saveState
  }

  lemma RequestFits(c: Cluster, config: Config, e: Event, h: C.State)
    requires Enabled(c, e) && (e.DeliverVoteRequest? || e.DeliverAppend? || e.DeliverSnapshot?) && !Tears(e, Place(e))
    requires ValidNode(c.nodes[Place(e)]) && SnapshotFits(c.nodes[Place(e)], c.disks[Place(e)])
    requires Rel(c, h)
    ensures var out := Act(c, config, e); ValidNode(out.node) && SnapshotFits(out.node, out.disk)
  {
    hide Rel, C.Inv, Tied, SnapshotFits, HandleRequestVote, HandleAppendEntries, HandleInstallSnapshot;
    var v := Place(e);
    var n, d := c.nodes[v], c.disks[v];
    match e
    case DeliverVoteRequest(m, saveTerm, saveVote) =>
      VoteSaves(n, d, m.vote, saveTerm, saveVote);
      var (n', d', _) := HandleRequestVote(n, d, m.vote, saveTerm, saveVote);
      SameFits(n, d, n', d');
    case DeliverAppend(m, saveTerm, saveLog) =>
      RelatedNode(c, h, v);
      RelatedMessage(c, h, m);
      AppendFits(n, d, h, v, m.src, m.append, saveTerm, saveLog);
    case DeliverSnapshot(m, saveTerm, saveSnapshot, saveState) =>
      InstallFits(n, d, config, m.install, saveTerm, saveSnapshot, saveState);
  }

  lemma ReplyFits(c: Cluster, config: Config, e: Event)
    requires Enabled(c, e) && (e.DeliverVoteReply? || e.DeliverAppendReply? || e.DeliverSnapshotReply?)
    requires ValidNode(c.nodes[Place(e)]) && SnapshotFits(c.nodes[Place(e)], c.disks[Place(e)])
    ensures var out := Act(c, config, e); ValidNode(out.node) && SnapshotFits(out.node, out.disk)
  {
    hide SnapshotFits, OnVoteReply, OnAppendReply, OnSnapshotReply;
    var n, d, out := c.nodes[Place(e)], c.disks[Place(e)], Act(c, config, e);
    match e
    case DeliverVoteReply(m, save) =>
      VoteReplySaves(n, d, config, m.src, m.vote, m.voted, save);
      SameFits(n, d, out.node, out.disk);
    case DeliverAppendReply(m, save) =>
      AppendReplySaves(n, d, m.src, m.append, m.appended, save);
      SameFits(n, d, out.node, out.disk);
    case DeliverSnapshotReply(m, save) =>
      SnapshotReplySaves(n, d, config, m.src, m.install, m.snapshot, m.installed, save);
      SameFits(n, d, out.node, out.disk);
  }

  lemma LocalFits(c: Cluster, config: Config, e: Event)
    requires Enabled(c, e) && Local(e)
    requires ValidNode(c.nodes[Place(e)]) && SnapshotFits(c.nodes[Place(e)], c.disks[Place(e)])
    ensures var out := Act(c, config, e); ValidNode(out.node) && SnapshotFits(out.node, out.disk)
  {
    hide SnapshotFits, StartElection, Broadcast, Propose, CreateSnapshot, NewNode, ReadCalls;
    var n, d, out := c.nodes[Place(e)], c.disks[Place(e)], Act(c, config, e);
    match e
    case Timeout(_, save) =>
      ElectionSaves(n, d, config, save);
      SameFits(n, d, out.node, out.disk);
    case Heartbeat(_) =>
      BroadcastSaves(n, d, config);
      SameFits(n, d, out.node, out.disk);
    case Command(_, command, save) =>
      ProposeFits(n, d, config, command, save);
    case TakeSnapshot(_, index, data, saveSnapshot, saveState) =>
      TakenFits(n, d, index, data, saveSnapshot && |data| <= MAX_SNAPSHOT_DATA, saveState);
    case Applied(_, _) => SameFits(n, d, out.node, out.disk);
    case Restored(_, _) => SameFits(n, d, out.node, out.disk);
    case Restart(v) => ReloadedFits(v, n.peers, d);
    case BeginRead(_, _) => SameFits(n, d, out.node, out.disk);
  }

  lemma ProposeFits(n: Node, d: Disk, config: Config, command: Bytes, save: bool)
    requires ValidNode(n) && SnapshotFits(n, d)
    ensures var out := Propose(n, d, config, command, save); ValidNode(out.node) && SnapshotFits(out.node, out.disk)
  {
    hide PeerCall, SnapshotFits, AdvanceCommit;
    var out, e := Propose(n, d, config, command, save), Entry(LastIndex(n.log) + 1, n.currentTerm, command);
    if n.role != Leader || !save {
      SameFits(n, d, out.node, out.disk);
    } else {
      AdvanceKeeps(n.(log := n.log + [e]));
      ExtendedFits(n, d, out.node, out.disk, e);
    }
  }

  lemma StepFits(c: Cluster, config: Config, e: Event, h: C.State, v: NodeId)
    requires Enabled(c, e) && v in c.nodes && ValidNode(c.nodes[v])
    requires e == Event.Restart(v) || (SnapshotFits(c.nodes[v], c.disks[v]) && !Tears(e, v))
    requires Rel(c, h)
    ensures var c' := Step(c, config, e);
            v in c'.nodes && ValidNode(c'.nodes[v]) && SnapshotFits(c'.nodes[v], c'.disks[v])
  {
    hide Rel, SnapshotFits, Act, ReadsAfter, Tears;
    if e == Event.Restart(v) {
      RestartFits(c, config, v);
    } else if Place(e) == v {
      if Local(e) {
        LocalFits(c, config, e);
      } else if e.DeliverVoteRequest? || e.DeliverAppend? || e.DeliverSnapshot? {
        RequestFits(c, config, e, h);
      } else {
        ReplyFits(c, config, e);
      }
    }
  }

  lemma RestartFits(c: Cluster, config: Config, v: NodeId)
    requires Enabled(c, Event.Restart(v))
    ensures var out := Act(c, config, Event.Restart(v)); ValidNode(out.node) && SnapshotFits(out.node, out.disk)
  {
    hide SnapshotFits, NewNode;
    ReloadedFits(v, c.nodes[v].peers, c.disks[v]);
  }

  /** Since node `v` last started, no installation there has lost its second
      save. */
  predicate Intact(events: seq<Event>, i: nat, v: NodeId)
    requires i <= |events|
  {
    i == 0 || events[i - 1] == Event.Restart(v) || (Intact(events, i - 1, v) && !Tears(events[i - 1], v))
  }

  lemma {:induction false} RunFits(config: Config, run: seq<Cluster>, events: seq<Event>, hs: seq<C.State>, i: nat,
                                   v: NodeId)
    requires i <= |events| && i < |run| && v in run[i].nodes && Intact(events, i, v)
    requires Traced(run, hs)
    requires IsRun(config, run, events)
    ensures v in run[i].disks && ValidNode(run[i].nodes[v]) && SnapshotFits(run[i].nodes[v], run[i].disks[v])
  {
    hide Rel, P.Grows, Init, Step, SnapshotFits, Enabled, Tears;
    assert Rel(run[i], hs[i]);
    RelatedNode(run[i], hs[i], v);
    if i == 0 {
      InitFits(run[0], v);
    } else {
      var e := events[i - 1];
      assert Next(run[i - 1], config, e, run[i]);
      assert Rel(run[i - 1], hs[i - 1]);
      StepMembers(run[i - 1], config, e, v);
      if e != Event.Restart(v) {
        RunFits(config, run, events, hs, i - 1, v);
      }
      StepFits(run[i - 1], config, e, hs[i - 1], v);
    }
  }

  lemma InitFits(c: Cluster, v: NodeId)
    requires Init(c) && v in c.nodes
    ensures v in c.disks && ValidNode(c.nodes[v]) && SnapshotFits(c.nodes[v], c.disks[v])
  {
    ReloadedFits(v, c.nodes[v].peers, c.disks[v]);
  }

  lemma StepMembers(c: Cluster, config: Config, e: Event, v: NodeId)
    requires Enabled(c, e) && v in Step(c, config, e).nodes
    ensures v in c.nodes && v in c.disks && ValidNode(c.nodes[v])
  {
    hide Act, ReadsAfter;
  }

  lemma NewNodeBoundary(id: NodeId, peers: seq<NodeId>, d: Disk)
    ensures var n := NewNode(id, peers, d); n.Some? ==> ValidNode(n.value) && n.value.log[0].term == SnapshotTerm(d)
  {
    hide Above;
  }

  /** Two logs that are the same above where one of them begins end the same,
      exactly if one of them goes beyond that or both hold it. */
  lemma SameEnd(l: Slice, l': Slice)
    requires |l| > 0 && |l'| > 0 && Boundary(l) <= Boundary(l')
    requires LastIndex(l') == C.Max(LastIndex(l), Boundary(l'))
    requires forall x: nat :: x > Boundary(l') ==> EntryAt(l', x) == EntryAt(l, x)
    ensures LastIndex(l') == LastIndex(l) && LastTerm(l') == LastTerm(l)
            <==> LastIndex(l) > Boundary(l') || TermAt(l, Boundary(l')) == Some(l'[0].term)
  {
    assert LastIndex(l) > Boundary(l') ==> EntryAt(l', LastIndex(l)) == EntryAt(l, LastIndex(l));
  }

  /** Crash safety of a node's own files: after any run, with any saves having
      failed and any crash between two of them, the node opens from the bytes
      on its disk if and only if the state file is not too large to load, and
      then it has the same term and vote and, above the saved snapshot, exactly
      the same log. The log ends where it did unless it ended at or before a
      snapshot that it does not hold; that takes an installation that lost its
      second save. */
  lemma ReopensOwnFiles(config: Config, run: seq<Cluster>, events: seq<Event>, i: nat, v: NodeId, crc: Bytes -> U32)
    requires i < |run| && v in run[i].nodes && v in run[i].disks && Storable(run[i].disks[v])
    requires IsRun(config, run, events)
    ensures ValidNode(run[i].nodes[v])
    ensures var n, d := run[i].nodes[v], run[i].disks[v];
            var reopened := OpenFiles(v, n.peers, Written(d, crc), crc);
            && (reopened.Some? <==> NotTooLarge(d))
            && (reopened.Some? ==>
                  && ValidNode(reopened.value)
                  && reopened.value.currentTerm == n.currentTerm
                  && reopened.value.votedFor == n.votedFor
                  && Boundary(reopened.value.log) == SnapshotIndex(d)
                  && (LastIndex(reopened.value.log) == LastIndex(n.log)
                      && LastTerm(reopened.value.log) == LastTerm(n.log)
                      <==> LastIndex(n.log) > SnapshotIndex(d) || SnapshotFits(n, d))
                  && forall x: nat :: x > SnapshotIndex(d) ==> EntryAt(reopened.value.log, x) == EntryAt(n.log, x))
    ensures Intact(events, i, v) ==> SnapshotFits(run[i].nodes[v], run[i].disks[v])
  {
    hide IsRun, Traced, Storable, DiskLoadable, NotTooLarge, Written, OpenFiles, NewNode, EntryAt, LastTerm, Rel,
         SnapshotFits, Intact;
    var hs := RunTraced(config, run, events);
    RunLoadable(config, run, events, hs, i);
    OpensWhatWasWritten(v, run[i].nodes[v].peers, run[i].disks[v], crc);
    RestartRestores(config, run, events, i, v);
    NewNodeBoundary(v, run[i].nodes[v].peers, run[i].disks[v]);
    EndKept(config, run, events, hs, i, v);
    RunLength(config, run, events);
    if Intact(events, i, v) {
      RunFits(config, run, events, hs, i, v);
    }
  }

  lemma RunLength(config: Config, run: seq<Cluster>, events: seq<Event>)
    requires IsRun(config, run, events)
    ensures |run| == |events| + 1
  {
  }

  lemma EndKept(config: Config, run: seq<Cluster>, events: seq<Event>, hs: seq<C.State>, i: nat, v: NodeId)
    requires i < |run| && v in run[i].nodes && v in run[i].disks && ValidNode(run[i].nodes[v])
    requires Traced(run, hs)
    requires var n, d := run[i].nodes[v], run[i].disks[v];
             var loaded := NewNode(v, n.peers, d);
             && loaded.Some? && ValidNode(loaded.value) && loaded.value.log[0].term == SnapshotTerm(d)
             && Boundary(loaded.value.log) == SnapshotIndex(d)
             && LastIndex(loaded.value.log) == C.Max(LastIndex(n.log), SnapshotIndex(d))
             && forall x: nat :: x > SnapshotIndex(d) ==> EntryAt(loaded.value.log, x) == EntryAt(n.log, x)
    ensures var n, d := run[i].nodes[v], run[i].disks[v];
            var log := NewNode(v, n.peers, d).value.log;
            LastIndex(log) == LastIndex(n.log) && LastTerm(log) == LastTerm(n.log)
            <==> LastIndex(n.log) > SnapshotIndex(d) || SnapshotFits(n, d)
  {
    hide Traced, NewNode, EntryAt, LastTerm, Rel, C.Inv, Tied, DiskRel, TermAt;
    TracedAt(run, hs, i);
    RelatedNode(run[i], hs[i], v);
    TiedEnd(run[i].nodes[v], run[i].disks[v], hs[i], v);
    DiskBoundary(run[i].nodes[v], run[i].disks[v]);
    SameEnd(run[i].nodes[v].log, NewNode(v, run[i].nodes[v].peers, run[i].disks[v]).value.log);
  }
}
