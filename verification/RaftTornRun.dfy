/** A run in which an installation loses its second save: the follower comes
    back with a log whose terms decrease. */
module RaftTornRun {
  import opened Options
  import opened RaftTypes
  import opened RaftMessages
  import opened RaftLog
  import opened RaftHandlers
  import opened RaftCluster

  const START := Entry(0, 0, [])

  /** Where a log begins that a snapshot of the first entry has replaced. */
  const BOUND := Entry(1, 2, [])

  /** The commands that are proposed and the payload of the snapshot. */
  datatype Case = Case(x: Bytes, y: Bytes, z: Bytes, data: Bytes)

  function X(g: Case): Entry { Entry(1, 1, g.x) }
  function Y(g: Case): Entry { Entry(2, 1, g.y) }
  function Z(g: Case): Entry { Entry(1, 2, g.z) }

  /** The payload fits into a snapshot and into one chunk. */
  predicate Fits(g: Case, config: Config) {
    |g.data| <= config.chunkSize && |g.data| <= MAX_SNAPSHOT_DATA
  }

  function PeersIn(u: NodeId): seq<NodeId> {
    if u == "v" then ["a", "b"] else if u == "a" then ["v", "b"] else ["v", "a"]
  }

  /** A node of the cluster, as far as every event needs it. */
  ghost predicate Has(c: Cluster, u: NodeId, role: Role, term: nat, log: Slice) {
    && Valid(c)
    && u in c.nodes
    && var n := c.nodes[u];
       n.id == u && n.peers == PeersIn(u) && n.role == role && n.currentTerm == term && n.log == log
  }

  /** Only `u` has changed, and nothing that was sent is gone. */
  ghost predicate OnlyAt(c: Cluster, c': Cluster, u: NodeId) {
    && Valid(c')
    && c.nodes.Keys == c'.nodes.Keys
    && c.messages <= c'.messages
    && forall w :: w in c.nodes && w != u ==> c'.nodes[w] == c.nodes[w]
  }

  lemma Moves(c: Cluster, config: Config, e: Event) returns (c': Cluster)
    requires Enabled(c, e) && |Act(c, config, e).node.log| > 0
    ensures Next(c, config, e, c') && OnlyAt(c, c', Place(e)) && Valid(c') && Place(e) in c'.nodes
    ensures c'.nodes[Place(e)] == Act(c, config, e).node && c'.disks[Place(e)] == Act(c, config, e).disk
    ensures Act(c, config, e).sent <= c'.messages
  {
    hide Act, ReadsAfter;
    c' := Step(c, config, e);
  }

  lemma Still(c: Cluster, c': Cluster, u: NodeId, w: NodeId, role: Role, term: nat, log: Slice)
    requires OnlyAt(c, c', u) && u != w && Has(c, w, role, term, log)
    ensures Has(c', w, role, term, log) && w in c.nodes && c'.nodes[w] == c.nodes[w]
    ensures c.messages <= c'.messages
  {
  }

  // --------------------------------------------------------------- elections

  function Asks(u: NodeId, term: nat): RequestVoteArgs {
    RequestVoteArgs(term, u, 0, 0)
  }

  lemma Standing(n: Node, d: Disk, config: Config, peer: NodeId)
    requires n.log == [START] && |n.peers| == 2 && peer in n.peers
    ensures var out := StartElection(n, d, config, true);
            && out.node == n.(currentTerm := n.currentTerm + 1, votedFor := n.id, role := Candidate,
                              votesReceived := {n.id})
            && VoteRequest(n.id, peer, Asks(n.id, n.currentTerm + 1)) in out.sent
  {
    hide BecomeLeader;
    assert |{n.id}| == 1;
  }

  lemma Stands(c: Cluster, config: Config, u: NodeId, role: Role, term: nat, peer: NodeId) returns (c': Cluster)
    requires Has(c, u, role, term, [START]) && role != Leader && peer in PeersIn(u)
    ensures Next(c, config, Timeout(u, true), c') && OnlyAt(c, c', u) && Has(c', u, Candidate, term + 1, [START])
    ensures c'.nodes[u].votesReceived == {u} && c'.nodes[u].commitIndex == c.nodes[u].commitIndex
    ensures c'.nodes[u].lastApplied == c.nodes[u].lastApplied
    ensures VoteRequest(u, peer, Asks(u, term + 1)) in c'.messages
  {
    hide StartElection, OnlyAt, Next;
    Standing(c.nodes[u], c.disks[u], config, peer);
    c' := Moves(c, config, Timeout(u, true));
  }

  lemma Voting(n: Node, d: Disk, u: NodeId, term: nat)
    requires n.log == [START] && n.currentTerm < term
    ensures var (n', _, reply) := HandleRequestVote(n, d, Asks(u, term), true, true);
            n' == SteppedDown(n, term).(votedFor := u) && reply == RequestVoteReply(term, true)
  {
  }

  lemma Votes(c: Cluster, config: Config, u: NodeId, term: nat, w: NodeId, was: nat) returns (c': Cluster)
    requires Has(c, w, Follower, was, [START]) && was < term && VoteRequest(u, w, Asks(u, term)) in c.messages
    ensures Next(c, config, DeliverVoteRequest(VoteRequest(u, w, Asks(u, term)), true, true), c') && OnlyAt(c, c', w)
    ensures Has(c', w, Follower, term, [START]) && c'.nodes[w].commitIndex == c.nodes[w].commitIndex
    ensures c'.nodes[w].lastApplied == c.nodes[w].lastApplied
    ensures VoteReply(w, u, Asks(u, term), RequestVoteReply(term, true)) in c'.messages
  {
    hide HandleRequestVote, OnlyAt, Next;
    Voting(c.nodes[w], c.disks[w], u, term);
    c' := Moves(c, config, DeliverVoteRequest(VoteRequest(u, w, Asks(u, term)), true, true));
  }

  lemma Winning(n: Node, d: Disk, config: Config, peer: NodeId)
    requires n.log == [START] && n.role == Candidate && n.votesReceived == {n.id} && n.commitIndex == 0
    requires |n.peers| == 2 && peer != n.id
    ensures var n' :=
        OnVoteReply(n, d, config, peer, Asks(n.id, n.currentTerm), RequestVoteReply(n.currentTerm, true), true).node;
            && n'.id == n.id && n'.peers == n.peers && n'.role == Leader && n'.currentTerm == n.currentTerm
               && n'.log == n.log
            && Unanswered(n') && n'.lastApplied == n.lastApplied
  {
    hide PeerCall, Committable;
    assert {n.id} + {peer} == {n.id, peer} && |{n.id, peer}| == 2;
  }

  lemma Wins(c: Cluster, config: Config, u: NodeId, term: nat, peer: NodeId) returns (c': Cluster)
    requires Has(c, u, Candidate, term, [START]) && c.nodes[u].votesReceived == {u} && c.nodes[u].commitIndex == 0
    requires peer != u
    requires VoteReply(peer, u, Asks(u, term), RequestVoteReply(term, true)) in c.messages
    ensures Next(c, config, DeliverVoteReply(VoteReply(peer, u, Asks(u, term), RequestVoteReply(term, true)), true), c')
    ensures OnlyAt(c, c', u)
    ensures Has(c', u, Leader, term, [START]) && Unanswered(c'.nodes[u])
    ensures c'.nodes[u].lastApplied == c.nodes[u].lastApplied
  {
    hide OnVoteReply, OnlyAt, Next;
    Winning(c.nodes[u], c.disks[u], config, peer);
    c' := Moves(c, config, DeliverVoteReply(VoteReply(peer, u, Asks(u, term), RequestVoteReply(term, true)), true));
  }

  // ------------------------------------------------------------- replication

  /** A leader that nobody has answered yet. */
  ghost predicate Unanswered(n: Node) {
    && n.commitIndex == 0
    && (forall p :: p in n.peers ==> Get(n.matchIndex, p) == 0)
    && (forall p :: p in n.peers ==> Get(n.nextIndex, p) == 1)
  }

  lemma NobodyMatches(n: Node, index: nat)
    requires |n.log| > 0 && |n.peers| == 2 && index > 0 && Unanswered(n)
    ensures !Committable(n, index)
  {
    assert n.peers[0] in n.peers && n.peers[1] in n.peers;
    var one := n.peers[..1];
    assert one[..0] == [];
    assert CountMatches(one, n.matchIndex, index) == 0;
    assert CountMatches(n.peers, n.matchIndex, index) == 0;
  }

  lemma {:induction false} StaysUncommitted(n: Node, upTo: nat)
    requires |n.log| > 0 && |n.peers| == 2 && Unanswered(n)
    ensures HighestCommittable(n, upTo) == 0
  {
    hide Committable;
    if upTo > 0 {
      NobodyMatches(n, upTo);
      StaysUncommitted(n, upTo - 1);
    }
  }

  lemma Proposing(n: Node, d: Disk, config: Config, command: Bytes)
    requires |n.log| > 0 && n.log[0] == START && n.role == Leader && |n.peers| == 2 && Unanswered(n)
    ensures var n' := n.(log := n.log + [Entry(|n.log|, n.currentTerm, command)]);
            var out := Propose(n, d, config, command, true);
            out.node == n' && forall p :: p in n.peers ==> PeerCall(n', config, p) in out.sent
  {
    hide PeerCall, HighestCommittable, Committable;
    var n' := n.(log := n.log + [Entry(|n.log|, n.currentTerm, command)]);
    StaysUncommitted(n', LastIndex(n'.log));
  }

  lemma Proposes(c: Cluster, config: Config, u: NodeId, term: nat, log: Slice, command: Bytes) returns (c': Cluster)
    requires Has(c, u, Leader, term, log) && |log| > 0 && log[0] == START && Unanswered(c.nodes[u])
    ensures Next(c, config, Command(u, command, true), c') && OnlyAt(c, c', u)
    ensures Has(c', u, Leader, term, log + [Entry(|log|, term, command)]) && Unanswered(c'.nodes[u])
    ensures c'.nodes[u].lastApplied == c.nodes[u].lastApplied
    ensures forall p :: p in PeersIn(u) ==> PeerCall(c'.nodes[u], config, p) in c'.messages
  {
    hide Propose, PeerCall, OnlyAt, Next;
    Proposing(c.nodes[u], c.disks[u], config, command);
    c' := Moves(c, config, Command(u, command, true));
  }

  /** The call that carries the first entry of term 2. */
  function Carries(g: Case): AppendEntriesArgs {
    AppendEntriesArgs(2, "a", 0, 0, [Z(g)], 0)
  }

  lemma Appending(g: Case, n: Node, d: Disk)
    requires n.log == [START] && n.currentTerm == 2 && n.role == Follower && n.commitIndex == 0
    ensures var (n', _, reply) := HandleAppendEntries(n, d, Carries(g), true, true);
            n' == n.(leaderId := "a", log := [START, Z(g)]) && reply == AppendEntriesReply(2, true)
  {
    assert n.log[1..] == [];
    assert [Z(g)][0..] == [Z(g)];
    assert Renumbered([Z(g)], 1) == [Z(g)];
  }

  lemma Appends(g: Case, c: Cluster, config: Config) returns (c': Cluster)
    requires Has(c, "b", Follower, 2, [START]) && c.nodes["b"].commitIndex == 0
    requires AppendRequest("a", "b", Carries(g), 0) in c.messages
    ensures Next(c, config, DeliverAppend(AppendRequest("a", "b", Carries(g), 0), true, true), c') && OnlyAt(c, c', "b")
    ensures Valid(c')
    ensures AppendReply("b", "a", Carries(g), 0, AppendEntriesReply(2, true)) in c'.messages
  {
    hide HandleAppendEntries, OnlyAt, Next;
    Appending(g, c.nodes["b"], c.disks["b"]);
    c' := Moves(c, config, DeliverAppend(AppendRequest("a", "b", Carries(g), 0), true, true));
  }

  /** A second node that holds the entry commits it. */
  lemma Counting(g: Case, n: Node, d: Disk)
    requires n.log == [START, Z(g)] && n.currentTerm == 2 && n.role == Leader && n.peers == ["v", "b"] && Unanswered(n)
    ensures var (n', _, _) := OnAppendReply(n, d, "b", Carries(g), AppendEntriesReply(2, true), true);
            n' == Matched(n, "b", 1).(commitIndex := 1)
  {
    var n' := Matched(n, "b", 1);
    assert n.peers[..1] + ["b"] == n.peers;
    assert CountMatches(n.peers, n'.matchIndex, 1) >= 1;
    assert Committable(n', 1);
  }

  lemma Counts(g: Case, c: Cluster, config: Config) returns (c': Cluster)
    requires Has(c, "a", Leader, 2, [START, Z(g)]) && Unanswered(c.nodes["a"])
    requires AppendReply("b", "a", Carries(g), 0, AppendEntriesReply(2, true)) in c.messages
    ensures Next(c, config, DeliverAppendReply(AppendReply("b", "a", Carries(g), 0, AppendEntriesReply(2, true)), true),
                 c')
    ensures OnlyAt(c, c', "a")
    ensures Has(c', "a", Leader, 2, [START, Z(g)]) && c'.nodes["a"].commitIndex == 1
    ensures Get(c'.nodes["a"].nextIndex, "v") == 1
    ensures c'.nodes["a"].lastApplied == c.nodes["a"].lastApplied
  {
    hide OnAppendReply, OnlyAt, Next;
    Counting(g, c.nodes["a"], c.disks["a"]);
    assert "v" in PeersIn("a");
    c' := Moves(c, config, DeliverAppendReply(AppendReply("b", "a", Carries(g), 0, AppendEntriesReply(2, true)), true));
  }

  // --------------------------------------------------------------- snapshots

  lemma Compacting(g: Case, n: Node, d: Disk)
    requires n.log == [START, Z(g)] && n.commitIndex == n.lastApplied == 1
    ensures CreateSnapshot(n, d, 1, g.data, true, true).0 == n.(log := [BOUND], snapshotData := g.data)
  {
    assert n.log[2..] == [];
  }

  lemma Snapshots(g: Case, c: Cluster, config: Config) returns (c': Cluster, c'': Cluster)
    requires Fits(g, config)
    requires Has(c, "a", Leader, 2, [START, Z(g)]) && c.nodes["a"].commitIndex == 1 && c.nodes["a"].lastApplied <= 1
    ensures Next(c, config, Applied("a", 1), c') && Next(c', config, TakeSnapshot("a", 1, g.data, true, true), c'')
    ensures OnlyAt(c, c', "a") && OnlyAt(c', c'', "a") && Valid(c') && Valid(c'')
    ensures Has(c'', "a", Leader, 2, [BOUND]) && c''.nodes["a"].snapshotData == g.data
    ensures c''.nodes["a"].commitIndex == 1
    ensures c''.nodes["a"].nextIndex == c.nodes["a"].nextIndex
  {
    hide CreateSnapshot, OnlyAt, Next;
    c' := Moves(c, config, Applied("a", 1));
    Compacting(g, c'.nodes["a"], c'.disks["a"]);
    c'' := Moves(c', config, TakeSnapshot("a", 1, g.data, true, true));
  }

  /** The whole snapshot in one chunk. */
  function Whole(g: Case, config: Config): Message {
    ChunkCall("a", "v", 2, Snapshot(1, 2, g.data), 0, config)
  }

  lemma Sends(g: Case, c: Cluster, config: Config) returns (c': Cluster)
    requires Has(c, "a", Leader, 2, [BOUND]) && c.nodes["a"].snapshotData == g.data && c.nodes["a"].commitIndex == 1
    requires Get(c.nodes["a"].nextIndex, "v") == 1
    ensures Next(c, config, Heartbeat("a"), c') && OnlyAt(c, c', "a") && Valid(c') && Whole(g, config) in c'.messages
  {
    hide ChunkCall, AppendCall, OnlyAt, Next, Committable;
    assert PeerCall(c.nodes["a"], config, "v") == Whole(g, config);
    assert "v" in PeersIn("a");
    c' := Moves(c, config, Heartbeat("a"));
  }

  /** The snapshot is saved; the log that goes with it is not. */
  lemma Tearing(g: Case, n: Node, d: Disk, config: Config)
    requires Fits(g, config)
    requires |n.log| > 0 && Boundary(n.log) == 0 && n.currentTerm < 2
    ensures Whole(g, config).SnapshotRequest?
    ensures var (n', d', _) := HandleInstallSnapshot(n, d, config, Whole(g, config).install, true, true, false);
            && n' == SteppedDown(n, 2).(leaderId := "a", chunkTransfer := None)
            && d' == Disk(Some(PersistentState(2, NOBODY, n.log[1..])), Some(Snapshot(1, 2, g.data)))
  {
    hide ReceiveChunk, ChunkCall;
    Arriving(g, config, n.chunkTransfer);
  }

  lemma Arriving(g: Case, config: Config, transfer: Option<Transfer>)
    requires Fits(g, config)
    ensures Whole(g, config).SnapshotRequest?
    ensures var args := Whole(g, config).install;
            && args.term == 2 && args.leader == "a" && args.lastIndex == 1 && args.lastTerm == 2 && args.chunked
            && ReceiveChunk(transfer, config, args).1 && ReceiveChunk(transfer, config, args).2 == Some(g.data)
  {
    assert g.data[0..|g.data|] == g.data && [] + g.data == g.data;
  }

  lemma Torn(g: Case, c: Cluster, config: Config, role: Role, term: nat, log: Slice) returns (c': Cluster)
    requires Fits(g, config)
    requires Has(c, "v", role, term, log) && |log| > 0 && log[0] == START && term < 2 && Whole(g, config) in c.messages
    ensures Next(c, config, DeliverSnapshot(Whole(g, config), true, true, false), c') && Valid(c')
    ensures "v" in c'.nodes && c'.nodes["v"].log == log
    ensures c'.disks["v"] == Disk(Some(PersistentState(2, NOBODY, log[1..])), Some(Snapshot(1, 2, g.data)))
  {
    hide HandleInstallSnapshot, OnlyAt, Next;
    Tearing(g, c.nodes["v"], c.disks["v"], config);
    c' := Moves(c, config, DeliverSnapshot(Whole(g, config), true, true, false));
  }

  lemma Reloading(g: Case, d: Disk, peers: seq<NodeId>)
    requires d == Disk(Some(PersistentState(2, NOBODY, [X(g), Y(g)])), Some(Snapshot(1, 2, g.data)))
    ensures var n := NewNode("v", peers, d); n.Some? && n.value.log == [BOUND, Y(g)]
  {
    assert [X(g), Y(g)][1..] == [Y(g)] && [Y(g)][1..] == [];
    assert Above([Y(g)], 1) == [Y(g)];
    assert Above([X(g), Y(g)], 1) == [Y(g)];
  }

  lemma ReloadingEmpty(g: Case, peers: seq<NodeId>)
    ensures var n := NewNode("v", peers, Disk(Some(PersistentState(2, NOBODY, [])), Some(Snapshot(1, 2, g.data))));
            n.Some? && n.value.log == [BOUND]
  {
  }

  lemma Restarts(g: Case, c: Cluster, config: Config) returns (c': Cluster)
    requires Valid(c) && "v" in c.nodes
    requires c.disks["v"] == Disk(Some(PersistentState(2, NOBODY, [X(g), Y(g)])), Some(Snapshot(1, 2, g.data)))
    ensures Next(c, config, Restart("v"), c') && "v" in c'.nodes && c'.nodes["v"].log == [BOUND, Y(g)]
  {
    hide NewNode, Next;
    Reloading(g, c.disks["v"], c.nodes["v"].peers);
    c' := Moves(c, config, Restart("v"));
  }

  // ----------------------------------------------------------------- the run

  lemma Begins() returns (c: Cluster)
    ensures Init(c)
    ensures Has(c, "v", Follower, 0, [START]) && Has(c, "a", Follower, 0, [START]) && Has(c, "b", Follower, 0, [START])
    ensures c.nodes["v"].commitIndex == c.nodes["a"].commitIndex == c.nodes["b"].commitIndex == 0
    ensures c.nodes["a"].lastApplied == 0
  {
    var d := Disk(None, None);
    var v, a, b :=
        NewNode("v", ["a", "b"], d).value, NewNode("a", ["v", "b"], d).value, NewNode("b", ["v", "a"], d).value;
    c := Cluster(map["v" := v, "a" := a, "b" := b], map["v" := d, "a" := d, "b" := d], {}, map[]);
    hide PeersOf, NewNode;
    assert c.nodes.Keys == {"v", "a", "b"};
    Peers();
  }

  lemma Peers()
    ensures var all := {"v", "a", "b"};
            PeersOf(["a", "b"], "v", all) && PeersOf(["v", "b"], "a", all) && PeersOf(["v", "a"], "b", all)
  {
    assert "v" != "a" && "v" != "b" && "a" != "b";
    assert |{"v", "a", "b"}| == 3;
  }

  /** The torn state is reached: a leader of term 2 commits index 1, a follower
      that holds two entries of term 1 saves the snapshot without the log that
      goes with it, and comes back with a log whose terms decrease. This is so
      for any commands and any payload that is sent in one chunk. */
  lemma TornReached(g: Case, config: Config) returns (run: seq<Cluster>, events: seq<Event>)
    requires Fits(g, config)
    ensures IsRun(config, run, events) && |events| == 16
    ensures events[14].DeliverSnapshot? && !events[14].saveState && events[15] == Restart("v")
    ensures "v" in run[16].nodes && run[16].nodes["v"].log == [Entry(1, 2, []), Entry(2, 1, g.y)]
  {
    hide Next, Init, Has, OnlyAt, Whole, Unanswered, FirstEvents, SecondEvents, ThirdEvents, FourthEvents;
    var c0, c1, c2, c3, c4, c5 := FirstReign(g, config);
    var log := [START, X(g), Y(g)];
    var c6, c7, c8, c9 := SecondReign(g, config, c5, Leader, 1, log, Follower);
    var c10, c11 := Decides(g, config, c9, Leader, 1, log);
    var c12, c13, c14 := Ships(g, config, c11, Leader, 1, log);
    var c15 := Torn(g, c14, config, Leader, 1, log);
    assert log[1..] == [X(g), Y(g)];
    var c16 := Restarts(g, c15, config);
    run, events := Extended(config, [c0], [], [c1, c2, c3, c4, c5], FirstEvents(g));
    run, events := Extended(config, run, events, [c6, c7, c8, c9], SecondEvents(g));
    run, events := Extended(config, run, events, [c10, c11], ThirdEvents(g));
    run, events := Extended(config, run, events, [c12, c13, c14, c15, c16], FourthEvents(g, config));
  }

  /** The one way in which a node's files end elsewhere than its log does: a
      follower with nothing in its log saves the snapshot without the log that
      goes with it, and would come back with a log that ends at the snapshot. */
  lemma EndMoves(g: Case, config: Config) returns (run: seq<Cluster>, events: seq<Event>)
    requires Fits(g, config)
    ensures IsRun(config, run, events) && |events| == 11
    ensures events[10].DeliverSnapshot? && !events[10].saveState
    ensures "v" in run[11].nodes && "v" in run[11].disks && run[11].nodes["v"].log == [Entry(0, 0, [])]
    ensures var reopened := NewNode("v", run[11].nodes["v"].peers, run[11].disks["v"]);
            reopened.Some? && reopened.value.log == [Entry(1, 2, [])]
  {
    hide Next, Init, Has, OnlyAt, Whole, Unanswered, SecondEvents, ThirdEvents, FourthEvents, NewNode;
    assert "v" != "a" && "v" != "b" && "a" != "b";
    var c0 := Begins();
    var c1 := Stands(c0, config, "a", Follower, 0, "b");
    Still(c0, c1, "a", "v", Follower, 0, [START]);
    Still(c0, c1, "a", "b", Follower, 0, [START]);
    var c2, c3, c4, c5 := SecondReign(g, config, c1, Follower, 0, [START], Candidate);
    var c6, c7 := Decides(g, config, c5, Follower, 0, [START]);
    var c8, c9, c10 := Ships(g, config, c7, Follower, 0, [START]);
    var c11 := Torn(g, c10, config, Follower, 0, [START]);
    assert [START][1..] == [];
    run, events := Extended(config, [c0], [], [c1], [Timeout("a", true)]);
    run, events := Extended(config, run, events, [c2, c3, c4, c5], SecondEvents(g));
    run, events := Extended(config, run, events, [c6, c7], ThirdEvents(g));
    run, events := Extended(config, run, events, [c8, c9, c10, c11], FourthEvents(g, config)[..4]);
    ReloadingEmpty(g, c11.nodes["v"].peers);
  }

  lemma Extended(config: Config, run: seq<Cluster>, events: seq<Event>, more: seq<Cluster>, next: seq<Event>)
      returns (run': seq<Cluster>, events': seq<Event>)
    requires IsRun(config, run, events) && |more| == |next| > 0
    requires Next(run[|events|], config, next[0], more[0])
    requires forall i :: 0 < i < |more| ==> Next(more[i - 1], config, next[i], more[i])
    ensures run' == run + more && events' == events + next && IsRun(config, run', events')
  {
    hide Next, Init;
    run', events' := run + more, events + next;
    var k := |events|;
    forall i | 0 <= i < |events'|
      ensures Next(run'[i], config, events'[i], run'[i + 1])
    {
      if i > k {
        assert run'[i] == more[i - k - 1] && events'[i] == next[i - k] && run'[i + 1] == more[i - k];
      }
    }
  }

  function FirstEvents(g: Case): (e: seq<Event>)
    ensures |e| == 5
  {
    [Timeout("v", true), DeliverVoteRequest(VoteRequest("v", "a", Asks("v", 1)), true, true),
     DeliverVoteReply(VoteReply("a", "v", Asks("v", 1), RequestVoteReply(1, true)), true),
     Command("v", g.x, true), Command("v", g.y, true)]
  }

  function SecondEvents(g: Case): (e: seq<Event>)
    ensures |e| == 4
  {
    [Timeout("a", true), DeliverVoteRequest(VoteRequest("a", "b", Asks("a", 2)), true, true),
     DeliverVoteReply(VoteReply("b", "a", Asks("a", 2), RequestVoteReply(2, true)), true), Command("a", g.z, true)]
  }

  function ThirdEvents(g: Case): (e: seq<Event>)
    ensures |e| == 2
  {
    [DeliverAppend(AppendRequest("a", "b", Carries(g), 0), true, true),
     DeliverAppendReply(AppendReply("b", "a", Carries(g), 0, AppendEntriesReply(2, true)), true)]
  }

  function FourthEvents(g: Case, config: Config): (e: seq<Event>)
    ensures |e| == 5 && e[3] == DeliverSnapshot(Whole(g, config), true, true, false) && e[4] == Restart("v")
  {
    [Applied("a", 1), TakeSnapshot("a", 1, g.data, true, true), Heartbeat("a"),
     DeliverSnapshot(Whole(g, config), true, true, false), Restart("v")]
  }

  lemma FirstReign(g: Case, config: Config)
      returns (c0: Cluster, c1: Cluster, c2: Cluster, c3: Cluster, c4: Cluster, c5: Cluster)
    ensures Init(c0)
    ensures var e := FirstEvents(g);
            && Next(c0, config, e[0], c1) && Next(c1, config, e[1], c2) && Next(c2, config, e[2], c3)
            && Next(c3, config, e[3], c4) && Next(c4, config, e[4], c5)
    ensures Has(c5, "v", Leader, 1, [START, X(g), Y(g)]) && Has(c5, "a", Follower, 1, [START])
    ensures Has(c5, "b", Follower, 0, [START])
    ensures c5.nodes["a"].commitIndex == c5.nodes["b"].commitIndex == c5.nodes["a"].lastApplied == 0
  {
    hide Next, Init, Has, OnlyAt, Unanswered;
    assert "v" != "a" && "v" != "b" && "a" != "b";
    c0 := Begins();
    c1 := Stands(c0, config, "v", Follower, 0, "a");
    Still(c0, c1, "v", "a", Follower, 0, [START]);
    Still(c0, c1, "v", "b", Follower, 0, [START]);
    c2 := Votes(c1, config, "v", 1, "a", 0);
    Still(c1, c2, "a", "v", Candidate, 1, [START]);
    Still(c1, c2, "a", "b", Follower, 0, [START]);
    c3 := Wins(c2, config, "v", 1, "a");
    Still(c2, c3, "v", "a", Follower, 1, [START]);
    Still(c2, c3, "v", "b", Follower, 0, [START]);
    c4 := Proposes(c3, config, "v", 1, [START], g.x);
    Still(c3, c4, "v", "a", Follower, 1, [START]);
    Still(c3, c4, "v", "b", Follower, 0, [START]);
    c5 := Proposes(c4, config, "v", 1, [START] + [X(g)], g.y);
    Still(c4, c5, "v", "a", Follower, 1, [START]);
    Still(c4, c5, "v", "b", Follower, 0, [START]);
    assert [START] + [X(g)] + [Y(g)] == [START, X(g), Y(g)];
  }

  lemma SecondReign(g: Case, config: Config, c5: Cluster, role: Role, term: nat, log: Slice, was: Role)
      returns (c6: Cluster, c7: Cluster, c8: Cluster, c9: Cluster)
    requires Has(c5, "v", role, term, log) && Has(c5, "a", was, 1, [START]) && was != Leader
    requires Has(c5, "b", Follower, 0, [START])
    requires c5.nodes["a"].commitIndex == c5.nodes["b"].commitIndex == c5.nodes["a"].lastApplied == 0
    ensures var e := SecondEvents(g);
            && Next(c5, config, e[0], c6) && Next(c6, config, e[1], c7) && Next(c7, config, e[2], c8)
               && Next(c8, config, e[3], c9)
    ensures Has(c9, "v", role, term, log) && Has(c9, "a", Leader, 2, [START, Z(g)])
    ensures Has(c9, "b", Follower, 2, [START])
    ensures Unanswered(c9.nodes["a"]) && c9.nodes["a"].lastApplied == c9.nodes["b"].commitIndex == 0
    ensures AppendRequest("a", "b", Carries(g), 0) in c9.messages
  {
    hide Next, Has, OnlyAt, Unanswered, PeerCall;
    assert "v" != "a" && "v" != "b" && "a" != "b";
    c6 := Stands(c5, config, "a", was, 1, "b");
    Still(c5, c6, "a", "v", role, term, log);
    Still(c5, c6, "a", "b", Follower, 0, [START]);
    c7 := Votes(c6, config, "a", 2, "b", 0);
    Still(c6, c7, "b", "v", role, term, log);
    Still(c6, c7, "b", "a", Candidate, 2, [START]);
    c8 := Wins(c7, config, "a", 2, "b");
    Still(c7, c8, "a", "v", role, term, log);
    Still(c7, c8, "a", "b", Follower, 2, [START]);
    c9 := Proposes(c8, config, "a", 2, [START], g.z);
    Still(c8, c9, "a", "v", role, term, log);
    Still(c8, c9, "a", "b", Follower, 2, [START]);
    assert [START] + [Z(g)] == [START, Z(g)];
    Calls(g, c9, config);
  }

  lemma Calls(g: Case, c: Cluster, config: Config)
    requires Has(c, "a", Leader, 2, [START, Z(g)]) && Unanswered(c.nodes["a"])
    ensures PeerCall(c.nodes["a"], config, "b") == AppendRequest("a", "b", Carries(g), 0)
  {
    assert "b" in PeersIn("a");
    assert c.nodes["a"].log[1..] == [Z(g)];
  }

  lemma Decides(g: Case, config: Config, c9: Cluster, role: Role, term: nat, log: Slice)
      returns (c10: Cluster, c11: Cluster)
    requires Has(c9, "v", role, term, log) && Has(c9, "a", Leader, 2, [START, Z(g)])
    requires Has(c9, "b", Follower, 2, [START])
    requires Unanswered(c9.nodes["a"]) && c9.nodes["a"].lastApplied == c9.nodes["b"].commitIndex == 0
    requires AppendRequest("a", "b", Carries(g), 0) in c9.messages
    ensures Next(c9, config, ThirdEvents(g)[0], c10) && Next(c10, config, ThirdEvents(g)[1], c11)
    ensures Has(c11, "v", role, term, log) && Has(c11, "a", Leader, 2, [START, Z(g)]) && c11.nodes["a"].lastApplied == 0
    ensures c11.nodes["a"].commitIndex == 1 && Get(c11.nodes["a"].nextIndex, "v") == 1
  {
    hide Next, Has, OnlyAt, Unanswered;
    assert "v" != "a" && "v" != "b" && "a" != "b";
    c10 := Appends(g, c9, config);
    Still(c9, c10, "b", "v", role, term, log);
    Still(c9, c10, "b", "a", Leader, 2, [START, Z(g)]);
    c11 := Counts(g, c10, config);
    Still(c10, c11, "a", "v", role, term, log);
  }

  lemma Ships(g: Case, config: Config, c11: Cluster, role: Role, term: nat, log: Slice)
      returns (c12: Cluster, c13: Cluster, c14: Cluster)
    requires Fits(g, config)
    requires Has(c11, "v", role, term, log) && Has(c11, "a", Leader, 2, [START, Z(g)])
    requires c11.nodes["a"].lastApplied == 0
    requires c11.nodes["a"].commitIndex == 1 && Get(c11.nodes["a"].nextIndex, "v") == 1
    ensures var e := FourthEvents(g, config);
            && Next(c11, config, e[0], c12) && Next(c12, config, e[1], c13) && Next(c13, config, e[2], c14)
    ensures Has(c14, "v", role, term, log) && Whole(g, config) in c14.messages
  {
    hide Next, Has, OnlyAt, Whole;
    assert "v" != "a";
    c12, c13 := Snapshots(g, c11, config);
    Still(c11, c12, "a", "v", role, term, log);
    Still(c12, c13, "a", "v", role, term, log);
    c14 := Sends(g, c13, config);
    Still(c13, c14, "a", "v", role, term, log);
  }
}
