/** Snapshots, restarts and progress of the state machine, as the nodes handle
    them, are steps of the uncompacted protocol. */
module RaftSnapshotSim {
  import opened Options
  import opened RaftTypes
  import opened RaftMessages
  import opened RaftLog
  import opened RaftHandlers
  import opened RaftCluster
  import opened RaftRefinement
  import opened RaftSimulation
  import opened RaftReplicationSim
  import C = Consensus
  import P = ConsensusProofs
  import S = ConsensusSteps
  import R = ConsensusReplication

  // ------------------------------------------------------- taking a snapshot

  /** A prefix that a server has settled justifies a snapshot of it. */
  lemma SettledSnapshot(h: C.State, v: NodeId, snapshot: Snapshot)
    requires v in h.servers && 0 < snapshot.index <= h.servers[v].settled <= |h.servers[v].log|
    requires snapshot.term == FullTermAt(h.servers[v].log, snapshot.index)
    requires C.Inv(h)
    ensures SnapshotRel(h, h.servers[v], snapshot)
  {
    hide C.Inv, C.Witnessed;
    SettledFacts(h, v, snapshot.index);
    assert h.chosen[snapshot.index - 1] == h.chosen[..snapshot.index][snapshot.index - 1];
  }

  /** The node with its log folded up to `index`. */
  function Folded(n: Node, index: nat, term: nat, data: Bytes): Node
    requires ValidNode(n) && Boundary(n.log) <= index <= LastIndex(n.log)
  {
    n.(log := Compacted(n.log, index, term), snapshotData := data)
  }

  lemma FoldedRel(n: Node, d: Disk, h: C.State, v: NodeId, index: nat, term: nat, data: Bytes)
    requires NodeRel(n, d, h, v) && Boundary(n.log) < index <= n.commitIndex && TermAt(n.log, index) == Some(term)
    requires C.Inv(h)
    ensures var d1 := SavedSnapshot(d, Snapshot(index, term, data));
            && NodeRel(n, d1, h, v)
            && NodeRel(Folded(n, index, term, data), Saved(Folded(n, index, term, data), d1), h, v)
  {
    hide C.Inv, SnapshotRel, Compacted;
    var full := h.servers[v].log;
    var d1 := SavedSnapshot(d, Snapshot(index, term, data));
    CompactionInvisible(n.log, full);
    CommitWithin(h, v);
    SettledSnapshot(h, v, Snapshot(index, term, data));
    CompactedRepresents(n.log, full, index, term);
    GroundedNumbered(h, v);
    FoldedBoundary(n, index, term, data);
    SavedRel(Folded(n, index, term, data), d1, full);
  }

  lemma FoldedBoundary(n: Node, index: nat, term: nat, data: Bytes)
    requires ValidNode(n) && Boundary(n.log) <= index <= LastIndex(n.log)
    ensures ValidNode(Folded(n, index, term, data)) && Boundary(Folded(n, index, term, data).log) == index
  {
  }

  lemma TakeSnapshotFollows(n: Node, d: Disk, h: C.State, v: NodeId, index: nat, data: Bytes,
                            saveSnapshot: bool, saveState: bool) returns (h': C.State)
    requires NodeRel(n, d, h, v)
    requires C.Inv(h)
    ensures var (n', d') := CreateSnapshot(n, d, index, data, saveSnapshot, saveState); Follows(h, h', v, n', d')
  {
    hide C.Inv, StateRel, DiskRel, SnapshotRel, LeaderRel, Compacted;
    h' := h;
    var (n', d') := CreateSnapshot(n, d, index, data, saveSnapshot, saveState);
    if Boundary(n.log) < index <= n.commitIndex && TermAt(n.log, index).Some? {
      FoldedRel(n, d, h, v, index, TermAt(n.log, index).value, data);
    }
    FollowsItself(n', d', h, v);
  }

  // ----------------------------------------------------- installing a snapshot

  lemma InstallForward(h: C.State, h': C.State, src: NodeId, args: InstallSnapshotArgs, snapshot: Snapshot)
    requires P.Grows(h, h') && InstallRel(h, src, args, snapshot)
    ensures InstallRel(h', src, args, snapshot)
  {
    P.WitnessedForward(h, h', args.lastIndex, args.term, args.term);
  }

  /** The leader's snapshot is a prefix of its log, and that prefix is chosen. */
  lemma InstallFacts(h: C.State, src: NodeId, args: InstallSnapshotArgs, snapshot: Snapshot)
    requires InstallRel(h, src, args, snapshot)
    requires C.Inv(h)
    ensures args.lastIndex <= |h.chosen|
    ensures h.reigns[args.term].log[..args.lastIndex] == h.chosen[..args.lastIndex]
    ensures h.chosen[args.lastIndex - 1].term == args.lastTerm
  {
    hide C.Inv, C.Witnessed;
    InvReigns(h);
    WitnessedLength(h, args.lastIndex, args.term);
    P.WitnessedWithin(h, args.lastIndex, args.term, args.term);
    assert h.chosen[..args.lastIndex] == h.reigns[args.term].log[..args.lastIndex];
    assert h.chosen[..args.lastIndex][args.lastIndex - 1]
           == h.reigns[args.term].log[..args.lastIndex][args.lastIndex - 1];
  }

  lemma InvReigns(h: C.State)
    requires C.Inv(h)
    ensures C.ReignsKeep(h)
  {
  }

  /** The node and its disk with the snapshot as the start of the log. */
  function Installed(n: Node, leader: NodeId, snapshot: Snapshot): Node
    requires ValidNode(n)
  {
    n.(role := Follower, leaderId := leader, log := WithBoundary(n.log, snapshot.index, snapshot.term),
       snapshotData := snapshot.data, pendingSnapshot := Some(snapshot), chunkTransfer := None)
  }

  lemma InstalledLog(l: Slice, reigns: map<nat, C.Reign>, full: C.Log, leader: C.Log, index: nat, term: nat)
    requires Represents(l, full) && Boundary(l) < index <= |leader| && term == leader[index - 1].term
    requires C.Grounded(reigns, full) && C.Grounded(reigns, leader)
    ensures Represents(WithBoundary(l, index, term), C.Overlay(full, leader[..index]))
    ensures Boundary(WithBoundary(l, index, term)) == index
    ensures Numbered(C.Overlay(full, leader[..index]))
  {
    var target := leader[..index];
    P.GroundedPrefix(reigns, leader, target);
    BoundaryRepresents(l, full, index, term, target);
    CompactionInvisible(l, full);
    if index <= |full| && FullTermAt(full, index) == term {
      SamePrefix(reigns, full, leader, index);
    } else if index <= |full| {
      assert target[index - 1] != full[index - 1];
    }
  }

  lemma InstalledSaved(n: Node, d: Disk, leader: NodeId, snapshot: Snapshot, full: C.Log)
    requires ValidNode(n) && Boundary(n.log) < snapshot.index
    requires Represents(Installed(n, leader, snapshot).log, full) && Numbered(full)
    requires Boundary(Installed(n, leader, snapshot).log) == snapshot.index
    ensures DiskRel(Installed(n, leader, snapshot), Saved(Installed(n, leader, snapshot), SavedSnapshot(d, snapshot)))
  {
    SavedRel(Installed(n, leader, snapshot), SavedSnapshot(d, snapshot), full);
  }

  /** Taking over the chosen prefix settles it: the new boundary may be
      related only once that is known, so both steps are taken together. */
  lemma InstalledFollows(n: Node, d: Disk, h: C.State, v: NodeId, src: NodeId, args: InstallSnapshotArgs,
                         snapshot: Snapshot)
    returns (h': C.State)
    requires NodeRel(n, d, h, v) && InstallRel(h, src, args, snapshot) && src != v && n.currentTerm == args.term
    requires Boundary(n.log) < args.lastIndex
    requires C.Inv(h)
    ensures Follows(h, h', v, Committed(Installed(n, src, snapshot), snapshot.index),
                    Saved(Installed(n, src, snapshot), SavedSnapshot(d, snapshot)))
  {
    hide C.Inv, P.Grows, P.Extends, SnapshotRel, C.Witnessed, LeaderRel, WithBoundary, Represents, DiskRel, C.Learn;
    var k := args.lastIndex;
    InvGrounded(h, v, args.term);
    InstalledLog(n.log, h.reigns, h.servers[v].log, h.reigns[args.term].log, k, args.lastTerm);
    InstalledSaved(n, d, src, snapshot, C.Overlay(h.servers[v].log, h.reigns[args.term].log[..k]));
    var h1 := C.Sync(h, v, k);
    R.SyncKeeps(h, v, k);
    P.ExtendsGrows(h, h1);
    MayLearnFromLeader(h, h1, v, args.term, k, k);
    h' := C.Learn(h1, v, k);
    S.LearnKeeps(h1, v, k);
    P.ExtendsGrows(h1, h');
    P.GrowsTransitive(h, h1, h');
    InstallFacts(h, src, args, snapshot);
    SyncLearnServer(h, v, k);
    InstalledSnapshot(h, h1, h', v, src, args, snapshot);
    InstalledRel(n, d, h, h', v, src, snapshot, k);
  }

  lemma SyncLearnServer(h: C.State, v: NodeId, k: nat)
    requires C.MaySync(h, v, k)
    ensures var h', s := C.Learn(C.Sync(h, v, k), v, k), h.servers[v];
            && Elsewhere(h, h', v)
            && h'.servers[v] == s.(role := Follower, log := C.Overlay(s.log, h.reigns[s.term].log[..k]),
                                   commit := C.Max(s.commit, k), settled := C.Max(s.settled, k))
  {
  }

  lemma InstalledSnapshot(h: C.State, h1: C.State, h': C.State, v: NodeId, src: NodeId, args: InstallSnapshotArgs,
                          snapshot: Snapshot)
    requires InstallRel(h, src, args, snapshot) && v in h.servers && h.servers[v].term == args.term
    requires P.Grows(h, h') && v in h'.servers && h'.servers[v].term == args.term
    requires args.lastIndex <= |h.chosen| && h.chosen[args.lastIndex - 1].term == args.lastTerm
    requires h.chosen[..args.lastIndex] == h.reigns[args.term].log[..args.lastIndex]
    requires h'.servers[v].log == C.Overlay(h.servers[v].log, h.reigns[args.term].log[..args.lastIndex])
    ensures SnapshotRel(h', h'.servers[v], snapshot)
  {
    hide C.Witnessed;
    P.WitnessedForward(h, h', args.lastIndex, args.term, args.term);
    assert h'.chosen[..args.lastIndex] == h.chosen[..args.lastIndex];
  }

  lemma InstalledRel(n: Node, d: Disk, h: C.State, h': C.State, v: NodeId, leader: NodeId, snapshot: Snapshot, k: nat)
    requires NodeRel(n, d, h, v) && Elsewhere(h, h', v) && snapshot.index == k
    requires h'.servers[v] == h.servers[v].(role := Follower, log := h'.servers[v].log,
      commit := C.Max(h.servers[v].commit, k), settled := C.Max(h.servers[v].settled, k))
    requires Represents(Installed(n, leader, snapshot).log, h'.servers[v].log)
    requires Boundary(Installed(n, leader, snapshot).log) == k
    requires DiskRel(Installed(n, leader, snapshot), Saved(Installed(n, leader, snapshot), SavedSnapshot(d, snapshot)))
    requires SnapshotRel(h', h'.servers[v], snapshot)
    ensures NodeRel(Committed(Installed(n, leader, snapshot), k),
                    Saved(Installed(n, leader, snapshot), SavedSnapshot(d, snapshot)), h', v)
  {
    hide SnapshotRel, WithBoundary;
  }

  /** Only the snapshot file was written. */
  lemma HalfInstalledRel(n: Node, d: Disk, h: C.State, v: NodeId, src: NodeId, args: InstallSnapshotArgs,
                         snapshot: Snapshot)
    requires NodeRel(n, d, h, v) && InstallRel(h, src, args, snapshot) && n.currentTerm == args.term
    requires Boundary(n.log) < args.lastIndex
    requires C.Inv(h)
    ensures NodeRel(n, SavedSnapshot(d, snapshot), h, v)
  {
    hide C.Inv, LeaderRel, Represents, C.Witnessed;
    InstallFacts(h, src, args, snapshot);
  }

  lemma InstallFollows(n: Node, d: Disk, h: C.State, v: NodeId, src: NodeId, args: InstallSnapshotArgs,
                       snapshot: Snapshot, n2: Node, saveSnapshot: bool, saveState: bool) returns (h': C.State)
    requires NodeRel(n, d, h, v) && InstallRel(h, src, args, snapshot) && src != v && n.currentTerm == args.term
    requires Boundary(n.log) < args.lastIndex
    requires n2 == n.(role := Follower, leaderId := src, chunkTransfer := None)
    requires C.Inv(h)
    ensures var (n', d', _) := Install(n2, d, snapshot, saveSnapshot, saveState); Follows(h, h', v, n', d')
  {
    hide C.Inv, StateRel, DiskRel, SnapshotRel, LeaderRel, P.Grows, WithBoundary;
    if saveSnapshot && saveState {
      h' := InstalledFollows(n, d, h, v, src, args, snapshot);
    } else {
      var d' := if saveSnapshot then SavedSnapshot(d, snapshot) else d;
      if saveSnapshot {
        HalfInstalledRel(n, d, h, v, src, args, snapshot);
      }
      h' := YieldFollows(n, d', h, v, n2);
    }
  }

  lemma InstallSnapshotFollows(n: Node, d: Disk, h: C.State, v: NodeId, config: Config, src: NodeId,
                               args: InstallSnapshotArgs, snapshot: Snapshot,
                               saveTerm: bool, saveSnapshot: bool, saveState: bool)
      returns (h': C.State)
    requires NodeRel(n, d, h, v) && InstallRel(h, src, args, snapshot) && src != v
    requires C.Inv(h)
    ensures var (n', d', _) := HandleInstallSnapshot(n, d, config, args, saveTerm, saveSnapshot, saveState);
            Follows(h, h', v, n', d')
  {
    hide C.Inv, StateRel, DiskRel, SnapshotRel, LeaderRel, P.Grows, Install, C.Witnessed;
    var (n1, d1, current) := Recognize(n, d, args.term, saveTerm);
    var h1 := RecognizeFollows(n, d, h, v, args.term, saveTerm);
    var (n', d', reply) := HandleInstallSnapshot(n, d, config, args, saveTerm, saveSnapshot, saveState);
    InstallForward(h, h1, src, args, snapshot);
    if !current {
      h' := h1;
    } else {
      var (transfer, accepted, payload) := ReceiveChunk(n1.chunkTransfer, config, args);
      if args.lastIndex <= Boundary(n1.log) || !accepted || payload.None? {
        h' := YieldFollows(n1, d1, h1, v, n');
      } else {
        var sent := Snapshot(args.lastIndex, args.lastTerm, payload.value);
        h' := InstallFollows(n1, d1, h1, v, src, args, sent,
                             n1.(role := Follower, leaderId := src, chunkTransfer := None), saveSnapshot, saveState);
      }
      FollowsChain(h, h1, h', v, n', d');
    }
  }

  lemma SnapshotReplyFollows(n: Node, d: Disk, h: C.State, v: NodeId, config: Config, peer: NodeId,
                             args: InstallSnapshotArgs,
                             snapshot: Snapshot, reply: InstallSnapshotReply, save: bool) returns (h': C.State)
    requires NodeRel(n, d, h, v) && InstallRel(h, v, args, snapshot) && peer != v
    requires C.Inv(h)
    ensures var out := OnSnapshotReply(n, d, config, peer, args, snapshot, reply, save);
            Follows(h, h', v, out.node, out.disk) && Justified(h', v, out.sent)
  {
    hide C.Inv, DiskRel, SnapshotRel, LeaderRel, P.Grows, AdvanceCommit, C.Witnessed;
    if reply.term > n.currentTerm {
      h' := BecomeFollowerFollows(n, d, h, v, reply.term, save);
    } else if n.role == Leader && n.currentTerm == args.term && reply.success && args.final {
      h' := MatchedFollows(n, d, h, v, peer, snapshot.index);
    } else {
      h' := h;
      FollowsItself(n, d, h, v);
    }
  }

  // ------------------------------------------------------------ the state machine

  lemma ProgressFollows(n: Node, d: Disk, h: C.State, v: NodeId, n': Node)
    requires NodeRel(n, d, h, v)
    requires n' == n.(lastApplied := n'.lastApplied, pendingSnapshot := n'.pendingSnapshot)
    requires n'.lastApplied <= n.commitIndex
    requires C.Inv(h)
    ensures Follows(h, h, v, n', d)
  {
    hide C.Inv, SnapshotRel, Represents;
    FollowsItself(n, d, h, v);
  }

  // ------------------------------------------------------------------- restart

  /** The log that the two files give. */
  function LoadedLog(d: Disk): Slice {
    var suffix := if d.snapshot.Some? then Above(SavedState(d).log, d.snapshot.value.index) else SavedState(d).log;
    [if d.snapshot.Some? then Entry(d.snapshot.value.index, d.snapshot.value.term, []) else Entry(0, 0, [])] + suffix
  }

  /** What the disk gives back: the snapshot's position, and whatever the log
      has above it. */
  lemma LoadedSuffix(n: Node, d: Disk, full: seq<Entry>)
    requires ValidNode(n) && DiskRel(n, d) && Boundary(n.log) <= |full| && n.log[1..] == full[Boundary(n.log)..]
    requires Numbered(full)
    ensures Boundary(LoadedLog(d)) == SnapshotIndex(d)
    ensures LoadedLog(d)[1..] == if SnapshotIndex(d) <= |full| then full[SnapshotIndex(d)..] else []
    ensures |LoadedLog(d)| > 1 ==> LoadedLog(d)[1].index == SnapshotIndex(d) + 1
  {
    var b, x := Boundary(n.log), SnapshotIndex(d);
    if d.snapshot.Some? {
      AboveTwice(SavedState(d).log, b, x);
      AboveSuffix(full, b, x);
      assert LoadedLog(d)[1..] == Above(SavedState(d).log, x);
    } else {
      AboveAll(SavedState(d).log, 0);
      assert LoadedLog(d)[1..] == SavedState(d).log == full[0..] == full;
    }
  }

  /** If the log has the snapshot's prefix or does not reach it, the disk gives
      back that log with that prefix. */
  lemma LoadedRepresents(d: Disk, h: C.State, s: C.Server)
    requires Boundary(LoadedLog(d)) == SnapshotIndex(d)
    requires LoadedLog(d)[1..] == if SnapshotIndex(d) <= |s.log| then s.log[SnapshotIndex(d)..] else []
    requires d.snapshot.Some? ==> SnapshotRel(h, s, d.snapshot.value)
    requires SnapshotIndex(d) <= |h.chosen| && !Conflicts(s.log, h.chosen, SnapshotIndex(d))
    ensures Represents(LoadedLog(d), C.Overlay(s.log, h.chosen[..SnapshotIndex(d)]))
  {
    hide C.Witnessed, Above;
    var x := SnapshotIndex(d);
    var prefix := h.chosen[..x];
    if d.snapshot.Some? {
      assert prefix[x - 1].term == d.snapshot.value.term;
    } else {
      assert prefix == [] && C.Overlay(s.log, []) == s.log;
    }
  }

  /** The log goes beyond `x` and is not the chosen one up to there. */
  ghost predicate Conflicts(log: C.Log, chosen: C.Log, x: nat)
    requires x <= |chosen|
  {
    x < |log| && !(chosen[..x] <= log)
  }

  /** The node that a restart gives. */
  function Reloaded(n: Node, d: Disk): Node {
    Node(n.id, n.peers, SavedState(d).term, SavedState(d).votedFor, LoadedLog(d), 0, 0, Follower, NOBODY, {}, map[],
         map[], if d.snapshot.Some? then d.snapshot.value.data else [], d.snapshot, None)
  }

  lemma AdoptServer(h: C.State, v: NodeId, x: nat)
    requires v in h.servers && x <= |h.chosen|
    ensures var h1, s := C.Restart(h, v), h.servers[v];
            var h' := C.Adopt(h1, v, x);
            && h1.servers[v].role == Follower && h1.servers[v].term == s.term
            && Elsewhere(h, h', v)
            && h'.servers[v] == s.(role := Follower, votes := {}, commit := 0, log := C.Overlay(s.log, h.chosen[..x]),
                                   settled := C.Max(s.settled, x))
  {
  }

  lemma ReloadedDisk(n: Node, d: Disk)
    requires ValidNode(n) && DiskRel(n, d)
    requires |LoadedLog(d)| > 1 ==> LoadedLog(d)[1].index == SnapshotIndex(d) + 1
    ensures NewNode(n.id, n.peers, d) == Some(Reloaded(n, d))
    ensures ValidNode(Reloaded(n, d)) && DiskRel(Reloaded(n, d), d)
    ensures Reloaded(n, d).currentTerm == n.currentTerm && Reloaded(n, d).votedFor == n.votedFor
  {
    if d.snapshot.None? {
      AboveAll(SavedState(d).log, 0);
    }
  }

  /** What a node's log shows of its server's, torn or not. */
  lemma TiedSuffix(n: Node, d: Disk, h: C.State, v: NodeId)
    requires Tied(n, d, h, v)
    requires C.Inv(h)
    ensures v in h.servers && ValidNode(n) && n.id == v && DiskRel(n, d) && PeersOf(n.peers, v, h.servers.Keys)
    ensures n.currentTerm == h.servers[v].term && n.votedFor == h.servers[v].vote
    ensures var log, b := h.servers[v].log, Boundary(n.log); b <= |log| && n.log[1..] == log[b..] && Numbered(log)
    ensures d.snapshot.Some? ==> SnapshotRel(h, h.servers[v], d.snapshot.value)
  {
    hide C.Inv, SnapshotRel, DiskRel, LeaderRel, PeersOf;
    GroundedNumbered(h, v);
  }

  lemma SnapshotWithin(d: Disk, h: C.State, s: C.Server)
    requires d.snapshot.Some? ==> SnapshotRel(h, s, d.snapshot.value)
    ensures SnapshotIndex(d) <= |h.chosen| && C.Witnessed(h, SnapshotIndex(d), s.term)
  {
  }

  /** A node that loads its files is where it was, up to what it had only in
      memory: its log is the old one or, where the snapshot reaches further,
      the chosen prefix. If the log conflicts with the snapshot, the part above
      the snapshot stays. */
  lemma RestartFollows(n: Node, d: Disk, h: C.State, v: NodeId) returns (h': C.State)
    requires Tied(n, d, h, v)
    requires C.Inv(h)
    ensures NewNode(v, n.peers, d) == Some(Reloaded(n, d))
    ensures Trails(h, h', v, Reloaded(n, d), d)
  {
    hide C.Inv, P.Grows, DiskRel, LoadedLog, NewNode, NodeRel, TornRel, SnapshotRel, Numbered, C.Witnessed;
    TiedSuffix(n, d, h, v);
    var s, x := h.servers[v], SnapshotIndex(d);
    SnapshotWithin(d, h, s);
    LoadedSuffix(n, d, s.log);
    ReloadedDisk(n, d);
    if Conflicts(s.log, h.chosen, x) {
      h' := TornRestart(n, d, h, v);
    } else {
      h' := WholeRestart(n, d, h, v);
    }
  }

  lemma WholeRestart(n: Node, d: Disk, h: C.State, v: NodeId) returns (h': C.State)
    requires v in h.servers && n.id == v && PeersOf(n.peers, v, h.servers.Keys)
    requires ValidNode(Reloaded(n, d)) && DiskRel(Reloaded(n, d), d)
    requires Reloaded(n, d).currentTerm == h.servers[v].term && Reloaded(n, d).votedFor == h.servers[v].vote
    requires Boundary(LoadedLog(d)) == SnapshotIndex(d)
    requires var log, x := h.servers[v].log, SnapshotIndex(d); LoadedLog(d)[1..] == if x <= |log| then log[x..] else []
    requires d.snapshot.Some? ==> SnapshotRel(h, h.servers[v], d.snapshot.value)
    requires SnapshotIndex(d) <= |h.chosen| && C.Witnessed(h, SnapshotIndex(d), h.servers[v].term)
    requires !Conflicts(h.servers[v].log, h.chosen, SnapshotIndex(d))
    requires C.Inv(h)
    ensures Follows(h, h', v, Reloaded(n, d), d)
  {
    hide C.Inv, P.Grows, P.Extends, C.Witnessed, C.Adopt, C.Restart, DiskRel, Represents, LoadedLog, C.Overlay,
         SnapshotRel, Conflicts, PeersOf;
    var s, x := h.servers[v], SnapshotIndex(d);
    LoadedRepresents(d, h, s);
    AdoptServer(h, v, x);
    var h1 := C.Restart(h, v);
    S.RestartKeeps(h, v);
    P.ExtendsGrows(h, h1);
    P.WitnessedForward(h, h1, x, s.term, s.term);
    h' := C.Adopt(h1, v, x);
    R.AdoptKeeps(h1, v, x);
    P.ExtendsGrows(h1, h');
    P.GrowsTransitive(h, h1, h');
    if d.snapshot.Some? {
      SnapshotLater(h, h', s, h'.servers[v], d.snapshot.value);
    }
  }

  lemma RestartServer(h: C.State, v: NodeId)
    requires v in h.servers
    ensures var h' := C.Restart(h, v);
            && Elsewhere(h, h', v)
            && h'.servers[v] == h.servers[v].(role := Follower, votes := {}, commit := 0)
            && h'.chosen == h.chosen
  {
  }

  lemma TornRestart(n: Node, d: Disk, h: C.State, v: NodeId) returns (h': C.State)
    requires v in h.servers && n.id == v && PeersOf(n.peers, v, h.servers.Keys)
    requires ValidNode(Reloaded(n, d)) && DiskRel(Reloaded(n, d), d)
    requires Reloaded(n, d).currentTerm == h.servers[v].term && Reloaded(n, d).votedFor == h.servers[v].vote
    requires Boundary(LoadedLog(d)) == SnapshotIndex(d)
    requires var log, x := h.servers[v].log, SnapshotIndex(d); LoadedLog(d)[1..] == if x <= |log| then log[x..] else []
    requires d.snapshot.Some? ==> SnapshotRel(h, h.servers[v], d.snapshot.value)
    requires SnapshotIndex(d) <= |h.chosen| && Conflicts(h.servers[v].log, h.chosen, SnapshotIndex(d))
    requires C.Inv(h)
    ensures C.Inv(h') && P.Grows(h, h') && Elsewhere(h, h', v) && TornRel(Reloaded(n, d), d, h', v)
  {
    hide C.Inv, P.Grows, P.Extends, C.Witnessed, C.Restart, DiskRel, Above, PeersOf;
    var s := h.servers[v];
    RestartServer(h, v);
    h' := C.Restart(h, v);
    S.RestartKeeps(h, v);
    P.ExtendsGrows(h, h');
    assert d.snapshot.Some?;
    SnapshotLater(h, h', s, h'.servers[v], d.snapshot.value);
  }
}
