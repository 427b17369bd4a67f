/** Where the code needs more than it checks: the read barrier of a leader that
    has committed nothing in its own term, and an installation whose second
    save is lost. Each has its condition and an example without it. */
module RaftLimits {
  import opened Options
  import opened RaftTypes
  import opened RaftMessages
  import opened RaftLog
  import opened RaftHandlers
  import opened RaftCluster
  import opened RaftRefinement
  import opened RaftSimulation
  import opened RaftTornSim
  import opened RaftSafety
  import opened RaftRuns
  import opened RaftReads
  import C = Consensus
  import P = ConsensusProofs

  // ----------------------------------------------------------- read barriers

  /** A leader that has committed an entry of its own term has nothing older
      above its commit index. */
  lemma OwnTermSuffices(config: Config, run: seq<Cluster>, events: seq<Event>, i: nat, v: NodeId, t: nat)
    requires IsRun(config, run, events) && i < |run| && Leads(run[i], v, t)
    requires HasTerm(run[i], v, run[i].nodes[v].commitIndex, t)
    ensures OwnAbove(run[i].nodes[v])
  {
    hide IsRun, Rel, P.Grows, C.Inv, Represents, Traced;
    var hs := RunTraced(config, run, events);
    TracedAt(run, hs, i);
    RelatedNode(run[i], hs[i], v);
    LeaderIsWhole(run[i].nodes[v], run[i].disks[v], hs[i], v);
    var n, h := run[i].nodes[v], hs[i];
    var full, k := h.servers[v].log, n.commitIndex;
    PositiveTerm(h, v);
    Shown(n.log, full, 1);
    if k > 0 {
      Shown(n.log, full, k);
      forall x | k < x <= LastIndex(n.log)
        ensures TermAt(n.log, x) == Some(t)
      {
        Shown(n.log, full, x);
        TermsBetween(h, v, k, x);
      }
    } else {
      CompactionInvisible(n.log, full);
    }
  }

  lemma PositiveTerm(h: C.State, v: NodeId)
    requires v in h.servers && h.servers[v].role == Leader
    requires C.Inv(h)
    ensures h.servers[v].term > 0
  {
    LeaderReigns(h, v);
  }

  lemma TermsBetween(h: C.State, v: NodeId, k: nat, x: nat)
    requires v in h.servers && 0 < k < x <= |h.servers[v].log|
    requires C.Inv(h)
    ensures h.servers[v].log[k - 1].term <= h.servers[v].log[x - 1].term <= h.servers[v].term
  {
    hide C.Keeps, C.SettledValid, C.ChosenValid, C.BallotsGrounded, C.BallotsValid, C.AcksValid, C.RolesValid,
         C.ReignsValid;
    P.GroundedTerms(h, h.servers[v].log, k - 1, x - 1);
  }

  // A cluster of one.

  ghost predicate Solo(c: Cluster, v: NodeId) {
    && c.nodes.Keys == c.disks.Keys == {v}
    && ValidNode(c.nodes[v])
    && c.nodes[v].peers == []
    && c.messages == {}
    && SnapshotIndex(c.disks[v]) <= LastIndex(c.nodes[v].log)
    && c.nodes[v].commitIndex <= LastIndex(c.nodes[v].log)
  }

  lemma SoloLast(n: Node)
    requires ValidNode(n) && n.peers == [] && LastTerm(n.log) == n.currentTerm && n.commitIndex <= LastIndex(n.log)
    ensures AdvanceCommit(n).commitIndex == LastIndex(n.log)
  {
    assert Committable(n, LastIndex(n.log));
  }

  lemma SoloAdvance(n: Node)
    requires ValidNode(n) && n.commitIndex <= LastIndex(n.log)
    ensures AdvanceCommit(n) == n.(commitIndex := AdvanceCommit(n).commitIndex)
    ensures AdvanceCommit(n).commitIndex <= LastIndex(n.log)
  {
  }

  /** An event in a cluster of one sends nothing, and either leaves the log's
      length or commits the whole log. */
  lemma SoloAct(c: Cluster, config: Config, e: Event, v: NodeId)
    requires Solo(c, v) && Enabled(c, e) && !e.Restart?
    ensures var out := Act(c, config, e);
            && Place(e) == v
            && out.sent == {}
            && ValidNode(out.node)
            && out.node.peers == []
            && SnapshotIndex(out.disk) <= LastIndex(out.node.log)
            && out.node.commitIndex <= LastIndex(out.node.log)
            && (LastIndex(out.node.log) == LastIndex(c.nodes[v].log) || out.node.commitIndex == LastIndex(out.node.log))
  {
    hide AdvanceCommit, PeerCall, StartElection, Propose, HandleRequestVote, OnVoteReply, HandleAppendEntries,
         OnAppendReply, HandleInstallSnapshot, OnSnapshotReply;
    var n, d := c.nodes[v], c.disks[v];
    match e
    case Timeout(_, _) =>
      SoloElection(n, d, config, e.save);
    case Heartbeat(_) =>
      SoloAdvance(n);
    case Command(_, command, save) =>
      SoloPropose(n, d, config, command, save);
    case _ =>
  }

  lemma SoloElection(n: Node, d: Disk, config: Config, save: bool)
    requires ValidNode(n) && n.peers == [] && n.commitIndex <= LastIndex(n.log)
    ensures var out := StartElection(n, d, config, save);
            && out.sent == {} && out.node.peers == [] && out.node.log == n.log
            && out.disk.snapshot == d.snapshot && out.node.commitIndex <= LastIndex(n.log)
  {
    hide ChunkCall, SliceFrom;
  }

  lemma SoloPropose(n: Node, d: Disk, config: Config, command: Bytes, save: bool)
    requires ValidNode(n) && n.peers == [] && n.commitIndex <= LastIndex(n.log)
    ensures var out := Propose(n, d, config, command, save);
            && out.sent == {} && out.node.peers == [] && out.disk.snapshot == d.snapshot
            && ValidNode(out.node) && LastIndex(n.log) <= LastIndex(out.node.log)
               && out.node.commitIndex <= LastIndex(out.node.log)
            && (out.node.log == n.log || out.node.commitIndex == LastIndex(out.node.log))
  {
    hide AdvanceCommit, ChunkCall, SliceFrom;
    var n' := n.(log := n.log + [Entry(LastIndex(n.log) + 1, n.currentTerm, command)]);
    SoloLast(n');
    SoloAdvance(n');
  }

  lemma SoloStep(config: Config, run: seq<Cluster>, events: seq<Event>, i: nat, v: NodeId)
    requires IsRun(config, run, events) && i < |events| && Solo(run[i], v)
    ensures Solo(run[i + 1], v)
    ensures LastIndex(run[i + 1].nodes[v].log) == LastIndex(run[i].nodes[v].log)
         || run[i + 1].nodes[v].commitIndex == LastIndex(run[i + 1].nodes[v].log)
  {
    hide Act, NewNode, ReadsAfter;
    var c, e := run[i], events[i];
    assert Next(c, config, e, run[i + 1]);
    if e.Restart? {
      RestartRestores(config, run, events, i, v);
      RestartActs(c, config, e);
    } else {
      SoloAct(c, config, e, v);
    }
  }

  lemma RestartActs(c: Cluster, config: Config, e: Event)
    requires Enabled(c, e) && e.Restart?
    ensures NewNode(e.node, c.nodes[e.node].peers, c.disks[e.node]).Some?
    ensures var n := NewNode(e.node, c.nodes[e.node].peers, c.disks[e.node]).value;
            Act(c, config, e) == Outcome(n, c.disks[e.node], {}) && n.peers == c.nodes[e.node].peers
            && n.commitIndex == 0
  {
  }

  /** In a cluster of one every entry of the log has been committed. */
  lemma {:induction false} SoloCommits(config: Config, run: seq<Cluster>, events: seq<Event>, i: nat, v: NodeId)
      returns (k: nat)
    requires IsRun(config, run, events) && i < |run| && run[0].nodes.Keys == {v}
    ensures Solo(run[i], v)
    ensures k <= i && v in run[k].nodes && run[k].nodes[v].commitIndex == LastIndex(run[i].nodes[v].log)
  {
    hide Next;
    if i == 0 {
      k := 0;
      assert v in run[0].nodes;
      assert PeersOf(run[0].nodes[v].peers, v, {v});
    } else {
      k := SoloCommits(config, run, events, i - 1, v);
      SoloStep(config, run, events, i - 1, v);
      if LastIndex(run[i].nodes[v].log) != LastIndex(run[i - 1].nodes[v].log) {
        k := i;
      }
    }
  }

  /** In a cluster of one, a read is up to date exactly when nothing from an
      earlier term lies above the leader's commit index: the check that the
      code leaves out is then the exact condition. */
  lemma SoloReadExact(config: Config, run: seq<Cluster>, events: seq<Event>, i: nat)
    requires IsRun(config, run, events) && i < |events| && events[i].BeginRead? && run[0].nodes.Keys == {events[i].node}
    ensures ReadSucceeds(run[i + 1], events[i].read) && events[i].node in run[i].nodes
    ensures OwnAbove(run[i].nodes[events[i].node]) <==>
      forall k, u :: 0 <= k <= i && u in run[k].nodes ==>
        run[k].nodes[u].commitIndex <= run[i + 1].barriers[events[i].read].index
  {
    var v, r := events[i].node, events[i].read;
    assert Next(run[i], config, events[i], run[i + 1]);
    var at := SoloCommits(config, run, events, i, v);
    SoloReads(config, run[i], events[i], run[i + 1], v);
    if OwnAbove(run[i].nodes[v]) {
      forall k, u | 0 <= k <= i && u in run[k].nodes
        ensures run[k].nodes[u].commitIndex <= run[i + 1].barriers[r].index
      {
        ReadBarrier(config, run, events, i, i + 1, k, u);
      }
    }
  }

  lemma SoloReads(config: Config, c: Cluster, e: Event, c': Cluster, v: NodeId)
    requires Solo(c, v) && Next(c, config, e, c') && e.BeginRead?
    ensures e.node == v && ReadSucceeds(c', e.read) && c'.barriers[e.read].index == c.nodes[v].commitIndex
  {
  }

  /** The example: a node commits an entry, restarts, is elected again and
      serves a read at index 0. */
  lemma StaleRead(config: Config) returns (run: seq<Cluster>, events: seq<Event>)
    ensures IsRun(config, run, events) && |events| == 5
    ensures events[4] == BeginRead("a", 1) && ReadSucceeds(run[5], 1)
    ensures "a" in run[2].nodes && run[2].nodes["a"].commitIndex == 1 && run[5].barriers[1].index == 0
  {
    hide Next, Init, ReadSucceeds;
    var c0, c1 := SoloElected(config);
    var c2 := SoloCommitted(config, c1);
    var c3 := SoloRestarted(config, c2);
    var c4 := SoloReelected(config, c3);
    var c5 := SoloRead(config, c4);
    run := [c0, c1, c2, c3, c4, c5];
    events := [Timeout("a", true), Command("a", [], true), Restart("a"), Timeout("a", true), BeginRead("a", 1)];
  }

  /** The state of node "a", alone, as far as the example needs it. */
  ghost predicate Alone(c: Cluster, term: nat, role: Role, entries: seq<Entry>, commit: nat) {
    && c.nodes.Keys == c.disks.Keys == {"a"}
    && c.messages == {}
    && c.barriers == map[]
    && var n := c.nodes["a"];
       && n.id == "a" && n.peers == [] && n.currentTerm == term && n.votedFor == "a" && n.role == role
          && n.commitIndex == commit
       && n.log == [Entry(0, 0, [])] + entries
       && c.disks["a"] == Disk(Some(PersistentState(term, "a", entries)), None)
  }

  lemma SoloElected(config: Config) returns (c0: Cluster, c1: Cluster)
    ensures Init(c0) && Next(c0, config, Timeout("a", true), c1)
    ensures Alone(c1, 1, Leader, [], 0)
  {
    var d := Disk(None, None);
    var n := NewNode("a", [], d).value;
    c0 := Cluster(map["a" := n], map["a" := d], {}, map[]);
    assert PeersOf([], "a", {"a"});
    c1 := Step(c0, config, Timeout("a", true));
    assert c1.disks["a"].state.value.log == [];
  }

  lemma SoloCommitted(config: Config, c: Cluster) returns (c': Cluster)
    requires Alone(c, 1, Leader, [], 0)
    ensures Next(c, config, Command("a", [], true), c') && Alone(c', 1, Leader, [Entry(1, 1, [])], 1)
  {
    hide AdvanceCommit, Committable, HighestCommittable, PeerCall;
    var e := Command("a", [], true);
    c' := Step(c, config, e);
    var n := c.nodes["a"].(log := c.nodes["a"].log + [Entry(1, 1, [])]);
    SoloLast(n);
    SoloAdvance(n);
    assert n.log[1..] == [Entry(1, 1, [])];
    assert Act(c, config, e) == Broadcast(n, Saved(n, c.disks["a"]), config);
    assert Broadcast(n, Saved(n, c.disks["a"]), config).sent == {};
  }

  lemma SoloRestarted(config: Config, c: Cluster) returns (c': Cluster)
    requires Alone(c, 1, Leader, [Entry(1, 1, [])], 1)
    ensures Next(c, config, Restart("a"), c') && Alone(c', 1, Follower, [Entry(1, 1, [])], 0)
  {
    c' := Step(c, config, Restart("a"));
  }

  lemma SoloReelected(config: Config, c: Cluster) returns (c': Cluster)
    requires Alone(c, 1, Follower, [Entry(1, 1, [])], 0)
    ensures Next(c, config, Timeout("a", true), c') && Alone(c', 2, Leader, [Entry(1, 1, [])], 0)
  {
    c' := Step(c, config, Timeout("a", true));
    assert c.nodes["a"].log[1..] == [Entry(1, 1, [])];
  }

  lemma SoloRead(config: Config, c: Cluster) returns (c': Cluster)
    requires Alone(c, 2, Leader, [Entry(1, 1, [])], 0)
    ensures Next(c, config, BeginRead("a", 1), c') && ReadSucceeds(c', 1) && c'.barriers[1].index == 0
  {
    c' := Step(c, config, BeginRead("a", 1));
  }

  // ---------------------------------------------------------- torn installs

  /** The log has nothing above the snapshot, or agrees with it. */
  predicate NoConflictAbove(l: Slice, index: nat, term: nat)
    requires |l| > 0
  {
    LastIndex(l) <= index || TermAt(l, index) == Some(term)
  }

  /** An installation that loses its second save in any state of any run, and a
      restart after it: the node comes back with the log that the whole
      installation would have given exactly when the log did not conflict with
      the snapshot. */
  lemma TornInstallExact(config: Config, run: seq<Cluster>, events: seq<Event>, i: nat, v: NodeId, snapshot: Snapshot)
    requires i < |run| && v in run[i].nodes && v in run[i].disks
    requires ValidNode(run[i].nodes[v]) && Boundary(run[i].nodes[v].log) < snapshot.index
    requires IsRun(config, run, events)
    ensures var n, d := run[i].nodes[v], run[i].disks[v];
            var torn := NewNode(v, n.peers, SavedSnapshot(d, snapshot));
            && torn.Some?
            && (torn.value.log == WithBoundary(n.log, snapshot.index, snapshot.term)
                <==> NoConflictAbove(n.log, snapshot.index, snapshot.term))
  {
    hide IsRun, Traced, C.Inv, Tied, DiskRel, SnapshotRel, PeersOf, NewNode, EndOf, Numbered;
    var hs := RunTraced(config, run, events);
    TracedAt(run, hs, i);
    RelatedNode(run[i], hs[i], v);
    var n, d, h := run[i].nodes[v], run[i].disks[v], hs[i];
    TiedEnd(n, d, h, v);
    TornLoaded(n, d, h.servers[v].log, snapshot);
    TornCompare(n.log, h.servers[v].log, snapshot);
  }

  lemma TornLoaded(n: Node, d: Disk, full: seq<Entry>, snapshot: Snapshot)
    requires ValidNode(n) && DiskRel(n, d) && EndOf(n.log, full) && Numbered(full) && Boundary(n.log) < snapshot.index
    ensures var torn, x := NewNode(n.id, n.peers, SavedSnapshot(d, snapshot)), snapshot.index;
            torn.Some? && torn.value.log == [Entry(x, snapshot.term, [])] + if x <= |full| then full[x..] else []
  {
    hide Above;
    var x, b := snapshot.index, Boundary(n.log);
    AboveTwice(SavedState(d).log, b, x);
    AboveSuffix(full, b, x);
    assert Above(SavedState(d).log, x) == if x <= |full| then full[x..] else [];
  }

  lemma TornCompare(l: Slice, full: seq<Entry>, snapshot: Snapshot)
    requires EndOf(l, full) && Boundary(l) < snapshot.index
    ensures var x, term := snapshot.index, snapshot.term;
            [Entry(x, term, [])] + (if x <= |full| then full[x..] else []) == WithBoundary(l, x, term) <==>
              NoConflictAbove(l, x, term)
  {
    var x, b := snapshot.index, Boundary(l);
    ShownAbove(l, full, x);
    if x <= |full| {
      assert l[x - b + 1..] == l[1..][x - b..] == full[b..][x - b..] == full[x..];
    }
    var kept := if x <= |full| then full[x..] else [];
    assert ([Entry(x, snapshot.term, [])] + kept)[1..] == kept;
  }
}
