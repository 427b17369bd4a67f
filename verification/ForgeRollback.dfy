/** A run of the database in which a snapshot comes late: a follower that has
    applied two commands restores a snapshot of the first, goes on saying that
    it has applied two, and has lost the second. */
module ForgeRollback {
  import opened Options
  import opened LittleEndian
  import opened KvMachine
  import opened KvSnapshots
  import opened RaftTypes
  import opened RaftMessages
  import opened RaftLog
  import opened RaftHandlers
  import opened RaftCluster
  import RaftStreams
  import opened RaftData
  import opened RaftSystem
  import opened ForgeDb
  import opened ForgeCases

  /** The log of both commands after the first is compacted. */
  function Cut(): (l: Slice)
    ensures |l| == 2 && l[0] == Entry(1, 1, []) && l[1] == E2()
  {
    [Entry(1, 1, []), E2()]
  }

  predicate LeaderIs(n: Node, log: Slice, commit: nat, applied: nat, next: nat, match': nat, data: Bytes) {
    && n.id == "a" && n.peers == ["b"] && n.role == Leader && n.currentTerm == 1
    && n.log == log && |log| > 0 && n.commitIndex == commit && n.lastApplied == applied && n.pendingSnapshot.None?
    && Get(n.nextIndex, "b") == next && Get(n.matchIndex, "b") == match' && n.snapshotData == data
  }

  predicate FollowerIs(n: Node, log: Slice, commit: nat, applied: nat, pending: Option<Snapshot>) {
    && n.id == "b" && n.peers == ["a"] && n.role == Follower && n.currentTerm == 1
    && n.log == log && |log| > 0 && n.commitIndex == commit && n.lastApplied == applied && n.pendingSnapshot == pending
  }

  // ------------------------------------------------------------------- moves

  ghost predicate Sound(s: System<KV>) {
    Valid(s.cluster) && s.apps.Keys == s.logs.Keys == s.cluster.nodes.Keys
  }

  ghost predicate Two(s: System<KV>) {
    Sound(s) && s.apps.Keys == {"a", "b"}
  }

  ghost predicate AtA(s: System<KV>, log: Slice, commit: nat, applied: nat, next: nat, match': nat, data: Bytes,
                      app: KV) {
    Two(s) && LeaderIs(s.cluster.nodes["a"], log, commit, applied, next, match', data) && s.apps["a"] == app
  }

  ghost predicate AtB(s: System<KV>, log: Slice, commit: nat, applied: nat, pending: Option<Snapshot>, app: KV) {
    Two(s) && FollowerIs(s.cluster.nodes["b"], log, commit, applied, pending) && s.apps["b"] == app
  }

  /** Only `u` has changed, and nothing that was sent is gone. */
  ghost predicate OnlyAt(s: System<KV>, s': System<KV>, u: NodeId) {
    && Sound(s) && Sound(s')
    && s'.apps.Keys == s.apps.Keys
    && s.cluster.messages <= s'.cluster.messages
    && forall w :: w in s.apps && w != u ==> s'.cluster.nodes[w] == s.cluster.nodes[w] && s'.apps[w] == s.apps[w]
  }

  lemma StillA(s: System<KV>, s': System<KV>, log: Slice, commit: nat, applied: nat, next: nat, match': nat,
               data: Bytes, app: KV)
    requires OnlyAt(s, s', "b") && AtA(s, log, commit, applied, next, match', data, app)
    ensures AtA(s', log, commit, applied, next, match', data, app) && s.cluster.messages <= s'.cluster.messages
  {
    assert "a" != "b";
  }

  lemma StillB(s: System<KV>, s': System<KV>, log: Slice, commit: nat, applied: nat, pending: Option<Snapshot>, app: KV)
    requires OnlyAt(s, s', "a") && AtB(s, log, commit, applied, pending, app)
    ensures AtB(s', log, commit, applied, pending, app) && s.cluster.messages <= s'.cluster.messages
  {
    assert "a" != "b";
  }

  lemma CoreMove(crc: Bytes -> U32, config: Config, s: System<KV>, e: Event) returns (s': System<KV>)
    requires Sound(s) && Enabled(s.cluster, e) && Place(e) in s.apps && !RaftStreams.AppliersOwn(e) && !e.Restart?
    requires ValidNode(Act(s.cluster, config, e).node)
    ensures Takes(crc, config, false, s, Core(e), s') && OnlyAt(s, s', Place(e)) && Sound(s')
    ensures s'.apps.Keys == s.apps.Keys
    ensures s'.cluster.nodes[Place(e)] == Act(s.cluster, config, e).node && s'.apps[Place(e)] == s.apps[Place(e)]
    ensures Act(s.cluster, config, e).sent <= s'.cluster.messages
  {
    hide Act, Enabled, ReadsAfter;
    s' := After(KvOf(crc), config, s, Core(e));
  }

  lemma ApplyMove(crc: Bytes -> U32, config: Config, s: System<KV>, u: NodeId, count: nat) returns (s': System<KV>)
    requires Sound(s) && u in s.apps
    requires ValidNode(Applier(KvOf(crc), s.cluster.nodes[u], s.apps[u], true, EMPTY, count).0)
    ensures Takes(crc, config, false, s, RaftSystem.Apply(u, true, EMPTY, count, false), s') && OnlyAt(s, s', u)
    ensures Sound(s') && s'.apps.Keys == s.apps.Keys
    ensures (s'.cluster.nodes[u], s'.apps[u]) == Applier(KvOf(crc), s.cluster.nodes[u], s.apps[u], true, EMPTY, count)
  {
    hide Applier, Recorded, KvOf, After;
    AfterApply(KvOf(crc), config, s, RaftSystem.Apply(u, true, EMPTY, count, false));
    s' := After(KvOf(crc), config, s, RaftSystem.Apply(u, true, EMPTY, count, false));
  }

  lemma SnapMove(crc: Bytes -> U32, config: Config, s: System<KV>, u: NodeId) returns (s': System<KV>)
    requires Sound(s) && u in s.apps && Savable(s.apps[u]) && |SnapshotOf(s.apps[u], crc)| <= MAX_SNAPSHOT_DATA
    requires var n := s.cluster.nodes[u];
             ValidNode(CreateSnapshot(n, s.cluster.disks[u], n.lastApplied, SnapshotOf(s.apps[u], crc), true, true).0)
    ensures Takes(crc, config, false, s, Snap(u, true, true), s') && OnlyAt(s, s', u) && Sound(s')
    ensures s'.apps.Keys == s.apps.Keys
    ensures s'.apps[u] == s.apps[u]
    ensures var n := s.cluster.nodes[u];
            s'.cluster.nodes[u]
              == CreateSnapshot(n, s.cluster.disks[u], n.lastApplied, SnapshotOf(s.apps[u], crc), true, true).0
  {
    hide CreateSnapshot, SnapshotOf, IsSnapshot, Savable;
    s' := After(KvOf(crc), config, s, Snap(u, true, true));
  }

  // --------------------------------------------------------- what nodes do

  const ASKS := RequestVoteArgs(1, "a", 0, 0)

  lemma Standing(n: Node, d: Disk, config: Config)
    requires n.id == "a" && n.peers == ["b"] && n.log == [START] && n.currentTerm == 0
    ensures var out := StartElection(n, d, config, true);
            && out.node == n.(currentTerm := 1, votedFor := "a", role := Candidate, votesReceived := {"a"})
            && VoteRequest("a", "b", ASKS) in out.sent
  {
    hide BecomeLeader;
    assert |{n.id}| == 1;
    assert "b" in n.peers;
  }

  lemma Voting(n: Node, d: Disk)
    requires n.log == [START] && n.currentTerm == 0
    ensures var (n', _, reply) := HandleRequestVote(n, d, ASKS, true, true);
            n' == SteppedDown(n, 1).(votedFor := "a") && reply == RequestVoteReply(1, true)
  {
  }

  lemma Winning(n: Node, d: Disk, config: Config)
    requires n.id == "a" && n.peers == ["b"] && n.log == [START] && n.currentTerm == 1 && n.role == Candidate
    requires n.votesReceived == {"a"}
    requires n.commitIndex == n.lastApplied == 0 && n.pendingSnapshot.None? && n.snapshotData == []
    ensures LeaderIs(OnVoteReply(n, d, config, "b", ASKS, RequestVoteReply(1, true), true).node, [START], 0, 0, 1, 0,
                     [])
  {
    hide PeerCall, Committable;
    assert {"a"} + {"b"} == {"a", "b"} && "a" != "b" && |{"a", "b"}| == 2;
    assert "b" in n.peers;
  }

  lemma Uncounted(n: Node, index: nat)
    requires |n.log| > 0 && n.peers == ["b"] && Get(n.matchIndex, "b") == 0 && index > 0
    ensures !Committable(n, index)
  {
    assert n.peers[..0] == [];
    assert CountMatches(n.peers, n.matchIndex, index) == 0;
  }

  lemma {:induction false} StaysUncommitted(n: Node, upTo: nat)
    requires |n.log| > 0 && n.peers == ["b"] && Get(n.matchIndex, "b") == 0
    ensures HighestCommittable(n, upTo) == n.commitIndex
  {
    hide Committable;
    if upTo > n.commitIndex {
      Uncounted(n, upTo);
      StaysUncommitted(n, upTo - 1);
    }
  }

  lemma Proposing(n: Node, d: Disk, config: Config, log: Slice, command: Bytes)
    requires LeaderIs(n, log, 0, 0, 1, 0, []) && log[0] == START
    ensures var out := Propose(n, d, config, command, true);
            && LeaderIs(out.node, log + [Entry(|log|, 1, command)], 0, 0, 1, 0, [])
            && PeerCall(out.node, config, "b") in out.sent
  {
    hide PeerCall, HighestCommittable, Committable;
    var n' := n.(log := log + [Entry(|log|, 1, command)]);
    StaysUncommitted(n', LastIndex(n'.log));
    assert "b" in n.peers;
  }

  /** The two commands on their way, and the call that commits them. */
  function Carries(): AppendEntriesArgs {
    AppendEntriesArgs(1, "a", 0, 0, [E1(), E2()], 0)
  }

  const COMMITS := AppendEntriesArgs(1, "a", 2, 1, [], 2)

  lemma Calling(n: Node, config: Config)
    requires LeaderIs(n, Full(), 0, 0, 1, 0, [])
    ensures PeerCall(n, config, "b") == AppendRequest("a", "b", Carries(), 0)
  {
    assert Full()[1..] == [E1(), E2()];
  }

  lemma Refusing(n: Node, d: Disk)
    requires FollowerIs(n, [START], 0, 0, None)
    ensures var (n', _, reply) := HandleAppendEntries(n, d, Carries(), true, false);
            FollowerIs(n', [START], 0, 0, None) && reply == AppendEntriesReply(1, false)
  {
    hide E1, E2;
    assert n.log[1..] == [];
  }

  lemma Appending(n: Node, d: Disk)
    requires FollowerIs(n, [START], 0, 0, None)
    ensures var (n', _, reply) := HandleAppendEntries(n, d, Carries(), true, true);
            FollowerIs(n', Full(), 0, 0, None) && reply == AppendEntriesReply(1, true)
  {
    assert n.log[1..] == [];
    assert [E1(), E2()][0..] == [E1(), E2()];
    assert Renumbered([E1(), E2()], 1) == [E1(), E2()];
    assert [START] + [E1(), E2()] == Full();
  }

  lemma Counting(n: Node, d: Disk)
    requires LeaderIs(n, Full(), 0, 0, 1, 0, [])
    ensures var (n', _, _) := OnAppendReply(n, d, "b", Carries(), AppendEntriesReply(1, true), true);
            LeaderIs(n', Full(), 2, 0, 3, 2, [])
  {
    hide XBytes, YBytes;
    var n' := Matched(n, "b", 2);
    assert n.peers[..0] == [];
    assert CountMatches(n.peers, n'.matchIndex, 2) == 1;
    assert Committable(n', 2);
  }

  lemma Announcing(n: Node, d: Disk, config: Config)
    requires LeaderIs(n, Full(), 2, 0, 3, 2, [])
    ensures var out := Broadcast(n, d, config);
            LeaderIs(out.node, Full(), 2, 0, 3, 2, []) && AppendRequest("a", "b", COMMITS, 0) in out.sent
  {
    hide Committable, ChunkCall;
    assert PeerCall(n, config, "b") == AppendRequest("a", "b", COMMITS, 0);
    assert "b" in n.peers;
  }

  lemma ApplyingFirst(crc: Bytes -> U32, n: Node)
    requires LeaderIs(n, Full(), 2, 0, 3, 2, [])
    ensures var (n', app) := Applier(KvOf(crc), n, EMPTY, true, EMPTY, 1);
            LeaderIs(n', Full(), 2, 1, 3, 2, []) && app == OnlyX()
  {
    hide OnlyX, ForgeDb.Step;
    Steps();
    assert CommittedEntries(n, 1)[..1] == [E1()];
    FoldOne(crc, EMPTY, E1());
  }

  lemma FoldOne(crc: Bytes -> U32, s: KV, e: Entry)
    ensures FoldFrom(KvOf(crc), s, [e]) == ForgeDb.Step(s, e.command)
  {
    assert [e][..0] == [];
  }

  lemma FoldTwo(crc: Bytes -> U32, s: KV, e: Entry, f: Entry)
    ensures FoldFrom(KvOf(crc), s, [e, f]) == ForgeDb.Step(ForgeDb.Step(s, e.command), f.command)
  {
    assert [e, f][..1] == [e];
    FoldOne(crc, s, e);
  }

  lemma Compacting(n: Node, d: Disk, data: Bytes)
    requires LeaderIs(n, Full(), 2, 1, 3, 2, [])
    ensures LeaderIs(CreateSnapshot(n, d, 1, data, true, true).0, Cut(), 2, 1, 3, 2, data)
  {
    assert Compacted(Full(), 1, 1) == Cut();
  }

  lemma BackingOff(n: Node, d: Disk, next: nat, data: Bytes)
    requires LeaderIs(n, Cut(), 2, 1, next, 2, data) && next > 1
    ensures var (n', _, _) := OnAppendReply(n, d, "b", Carries(), AppendEntriesReply(1, false), true);
            LeaderIs(n', Cut(), 2, 1, next - 1, 2, data)
  {
  }

  function Ships(config: Config, data: Bytes): Message {
    ChunkCall("a", "b", 1, Snapshot(1, 1, data), 0, config)
  }

  lemma Shipping(n: Node, d: Disk, config: Config, data: Bytes)
    requires LeaderIs(n, Cut(), 2, 1, 1, 2, data)
    ensures var out := Broadcast(n, d, config);
            LeaderIs(out.node, Cut(), 2, 1, 1, 2, data) && Ships(config, data) in out.sent
  {
    hide Committable, ChunkCall;
    assert PeerCall(n, config, "b") == Ships(config, data);
    assert "b" in n.peers;
  }

  lemma Learning(n: Node, d: Disk)
    requires FollowerIs(n, Full(), 0, 0, None)
    ensures FollowerIs(HandleAppendEntries(n, d, COMMITS, true, true).0, Full(), 2, 0, None)
  {
    assert Full()[..3] == Full();
  }

  lemma ApplyingBoth(crc: Bytes -> U32, n: Node)
    requires FollowerIs(n, Full(), 2, 0, None)
    ensures var (n', app) := Applier(KvOf(crc), n, EMPTY, true, EMPTY, 2);
            FollowerIs(n', Full(), 2, 2, None) && app == Both()
  {
    hide OnlyX, Both, ForgeDb.Step;
    Steps();
    assert CommittedEntries(n, 1) == [E1(), E2()];
    FoldTwo(crc, EMPTY, E1(), E2());
  }

  lemma Installing(n: Node, d: Disk, config: Config, data: Bytes)
    requires FollowerIs(n, Full(), 2, 2, None) && |data| <= config.chunkSize && |data| <= MAX_SNAPSHOT_DATA
    ensures Ships(config, data).SnapshotRequest?
    ensures FollowerIs(HandleInstallSnapshot(n, d, config, Ships(config, data).install, true, true, true).0, Cut(), 2,
                       2, Some(Snapshot(1, 1, data)))
  {
    hide ReceiveChunk, ChunkCall, Compacted;
    Receiving(config, n.chunkTransfer, data);
    Cutting();
  }

  lemma Receiving(config: Config, transfer: Option<Transfer>, data: Bytes)
    requires |data| <= config.chunkSize && |data| <= MAX_SNAPSHOT_DATA
    ensures Ships(config, data).SnapshotRequest?
    ensures var args := Ships(config, data).install;
            && args.term == 1 && args.leader == "a" && args.lastIndex == 1 && args.lastTerm == 1 && args.chunked
            && ReceiveChunk(transfer, config, args).1 && ReceiveChunk(transfer, config, args).2 == Some(data)
  {
    assert data[0..|data|] == data && [] + data == data;
  }

  lemma Cutting()
    ensures WithBoundary(Full(), 1, 1) == Cut()
  {
    assert Compacted(Full(), 1, 1) == Cut();
  }

  lemma Restoring(crc: Bytes -> U32, n: Node, app: KV)
    requires FollowerIs(n, Cut(), 2, 2, Some(Snapshot(1, 1, SnapshotOf(OnlyX(), crc))))
    ensures var (n', app') := Applier(KvOf(crc), n, app, true, EMPTY, 1);
            FollowerIs(n', Cut(), 2, 2, None) && app' == OnlyX()
  {
    hide OnlyX, SnapshotOf, IsSnapshot, ForgeDb.Restored, Small, WellTyped;
    AllSmall();
    AllWellTyped();
    GivesBack(OnlyX(), crc);
  }

  // ----------------------------------------------------------------- the run

  const M_ASKS := VoteRequest("a", "b", ASKS)
  const M_VOTES := VoteReply("b", "a", ASKS, RequestVoteReply(1, true))
  const M_COMMITS := AppendRequest("a", "b", COMMITS, 0)

  function Appends(): Message { AppendRequest("a", "b", Carries(), 0) }
  function Answers(success: bool): Message { AppendReply("b", "a", Carries(), 0, AppendEntriesReply(1, success)) }

  predicate NewIs(n: Node, id: NodeId, peer: NodeId) {
    && n.id == id && n.peers == [peer] && n.log == [START] && n.currentTerm == n.commitIndex == n.lastApplied == 0
    && n.role == Follower && n.pendingSnapshot.None? && n.snapshotData == []
  }

  predicate CandidateIs(n: Node) {
    && n.id == "a" && n.peers == ["b"] && n.log == [START] && n.currentTerm == 1 && n.role == Candidate
       && n.votesReceived == {"a"}
    && n.commitIndex == n.lastApplied == 0 && n.pendingSnapshot.None? && n.snapshotData == []
  }

  lemma Begins(crc: Bytes -> U32) returns (s: System<KV>)
    ensures SystemInit(KvOf(crc), s) && Two(s) && s.apps["a"] == s.apps["b"] == EMPTY
    ensures NewIs(s.cluster.nodes["a"], "a", "b") && NewIs(s.cluster.nodes["b"], "b", "a")
  {
    var d := Disk(None, None);
    var a, b := NewNode("a", ["b"], d).value, NewNode("b", ["a"], d).value;
    s := System(Cluster(map["a" := a, "b" := b], map["a" := d, "b" := d], {}, map[]), map["a" := EMPTY, "b" := EMPTY],
                map["a" := [EMPTY], "b" := [EMPTY]]);
    assert s.cluster.nodes.Keys == {"a", "b"};
    assert PeersOf(["b"], "a", {"a", "b"}) && PeersOf(["a"], "b", {"a", "b"});
  }

  lemma Unchanged(s: System<KV>, s': System<KV>, u: NodeId, w: NodeId)
    requires OnlyAt(s, s', u) && w in s.apps && w != u
    ensures w in s.cluster.nodes && w in s'.cluster.nodes && w in s'.apps
    ensures s'.cluster.nodes[w] == s.cluster.nodes[w] && s'.apps[w] == s.apps[w]
    ensures s.cluster.messages <= s'.cluster.messages
  {
  }

  lemma Stands(crc: Bytes -> U32, config: Config, s: System<KV>) returns (s': System<KV>)
    requires Two(s) && NewIs(s.cluster.nodes["a"], "a", "b") && NewIs(s.cluster.nodes["b"], "b", "a")
    requires s.apps["a"] == s.apps["b"] == EMPTY
    ensures Takes(crc, config, false, s, Core(Timeout("a", true)), s') && Two(s') && M_ASKS in s'.cluster.messages
    ensures CandidateIs(s'.cluster.nodes["a"]) && NewIs(s'.cluster.nodes["b"], "b", "a")
    ensures s'.apps["a"] == s'.apps["b"] == EMPTY
  {
    hide Takes, OnlyAt, StartElection;
    Standing(s.cluster.nodes["a"], s.cluster.disks["a"], config);
    s' := CoreMove(crc, config, s, Timeout("a", true));
    assert "a" != "b";
    Unchanged(s, s', "a", "b");
  }

  lemma Votes(crc: Bytes -> U32, config: Config, s: System<KV>) returns (s': System<KV>)
    requires Two(s) && CandidateIs(s.cluster.nodes["a"]) && NewIs(s.cluster.nodes["b"], "b", "a")
    requires s.apps["a"] == s.apps["b"] == EMPTY
    requires M_ASKS in s.cluster.messages
    ensures Takes(crc, config, false, s, Core(DeliverVoteRequest(M_ASKS, true, true)), s') && Two(s')
    ensures M_VOTES in s'.cluster.messages
    ensures CandidateIs(s'.cluster.nodes["a"]) && s'.apps["a"] == EMPTY && AtB(s', [START], 0, 0, None, EMPTY)
  {
    hide Takes, OnlyAt, HandleRequestVote;
    Voting(s.cluster.nodes["b"], s.cluster.disks["b"]);
    s' := CoreMove(crc, config, s, DeliverVoteRequest(M_ASKS, true, true));
    assert "a" != "b";
    Unchanged(s, s', "b", "a");
  }

  lemma Wins(crc: Bytes -> U32, config: Config, s: System<KV>) returns (s': System<KV>)
    requires Two(s) && CandidateIs(s.cluster.nodes["a"]) && s.apps["a"] == EMPTY && AtB(s, [START], 0, 0, None, EMPTY)
    requires M_VOTES in s.cluster.messages
    ensures Takes(crc, config, false, s, Core(DeliverVoteReply(M_VOTES, true)), s')
    ensures AtA(s', [START], 0, 0, 1, 0, [], EMPTY) && AtB(s', [START], 0, 0, None, EMPTY)
  {
    hide Takes, OnlyAt, OnVoteReply;
    Winning(s.cluster.nodes["a"], s.cluster.disks["a"], config);
    s' := CoreMove(crc, config, s, DeliverVoteReply(M_VOTES, true));
    StillB(s, s', [START], 0, 0, None, EMPTY);
  }

  lemma Proposes(crc: Bytes -> U32, config: Config, s: System<KV>, log: Slice, command: Bytes) returns (s': System<KV>)
    requires AtA(s, log, 0, 0, 1, 0, [], EMPTY) && AtB(s, [START], 0, 0, None, EMPTY) && log[0] == START
    ensures Takes(crc, config, false, s, Core(Command("a", command, true)), s')
    ensures AtA(s', log + [Entry(|log|, 1, command)], 0, 0, 1, 0, [], EMPTY) && AtB(s', [START], 0, 0, None, EMPTY)
    ensures PeerCall(s'.cluster.nodes["a"], config, "b") in s'.cluster.messages
  {
    hide Takes, OnlyAt, Propose, PeerCall;
    Proposing(s.cluster.nodes["a"], s.cluster.disks["a"], config, log, command);
    s' := CoreMove(crc, config, s, Command("a", command, true));
    StillB(s, s', [START], 0, 0, None, EMPTY);
  }

  lemma Refuses(crc: Bytes -> U32, config: Config, s: System<KV>) returns (s': System<KV>)
    requires AtA(s, Full(), 0, 0, 1, 0, [], EMPTY) && AtB(s, [START], 0, 0, None, EMPTY)
    requires Appends() in s.cluster.messages
    ensures Takes(crc, config, false, s, Core(DeliverAppend(Appends(), true, false)), s')
    ensures AtA(s', Full(), 0, 0, 1, 0, [], EMPTY) && AtB(s', [START], 0, 0, None, EMPTY)
    ensures Appends() in s'.cluster.messages && Answers(false) in s'.cluster.messages
  {
    hide Takes, OnlyAt, HandleAppendEntries, Full, Carries;
    Refusing(s.cluster.nodes["b"], s.cluster.disks["b"]);
    s' := CoreMove(crc, config, s, DeliverAppend(Appends(), true, false));
    StillA(s, s', Full(), 0, 0, 1, 0, [], EMPTY);
  }

  lemma Accepts(crc: Bytes -> U32, config: Config, s: System<KV>) returns (s': System<KV>)
    requires AtA(s, Full(), 0, 0, 1, 0, [], EMPTY) && AtB(s, [START], 0, 0, None, EMPTY)
    requires Appends() in s.cluster.messages
    ensures Takes(crc, config, false, s, Core(DeliverAppend(Appends(), true, true)), s')
    ensures AtA(s', Full(), 0, 0, 1, 0, [], EMPTY) && AtB(s', Full(), 0, 0, None, EMPTY)
    ensures s.cluster.messages <= s'.cluster.messages && Answers(true) in s'.cluster.messages
  {
    hide Takes, OnlyAt, HandleAppendEntries, Full, Carries;
    Appending(s.cluster.nodes["b"], s.cluster.disks["b"]);
    s' := CoreMove(crc, config, s, DeliverAppend(Appends(), true, true));
    StillA(s, s', Full(), 0, 0, 1, 0, [], EMPTY);
  }

  lemma Decides(crc: Bytes -> U32, config: Config, s: System<KV>) returns (s': System<KV>)
    requires AtA(s, Full(), 0, 0, 1, 0, [], EMPTY) && AtB(s, Full(), 0, 0, None, EMPTY)
    requires Answers(true) in s.cluster.messages
    ensures Takes(crc, config, false, s, Core(DeliverAppendReply(Answers(true), true)), s')
    ensures s.cluster.messages <= s'.cluster.messages
    ensures AtA(s', Full(), 2, 0, 3, 2, [], EMPTY) && AtB(s', Full(), 0, 0, None, EMPTY)
  {
    hide Takes, OnlyAt, OnAppendReply, Full, Carries;
    Counting(s.cluster.nodes["a"], s.cluster.disks["a"]);
    s' := CoreMove(crc, config, s, DeliverAppendReply(Answers(true), true));
    StillB(s, s', Full(), 0, 0, None, EMPTY);
  }

  lemma Announces(crc: Bytes -> U32, config: Config, s: System<KV>) returns (s': System<KV>)
    requires AtA(s, Full(), 2, 0, 3, 2, [], EMPTY) && AtB(s, Full(), 0, 0, None, EMPTY)
    ensures Takes(crc, config, false, s, Core(Heartbeat("a")), s') && s.cluster.messages <= s'.cluster.messages
    ensures M_COMMITS in s'.cluster.messages
    ensures AtA(s', Full(), 2, 0, 3, 2, [], EMPTY) && AtB(s', Full(), 0, 0, None, EMPTY)
  {
    hide Takes, OnlyAt, Broadcast, Full;
    Announcing(s.cluster.nodes["a"], s.cluster.disks["a"], config);
    s' := CoreMove(crc, config, s, Heartbeat("a"));
    StillB(s, s', Full(), 0, 0, None, EMPTY);
  }

  lemma AppliesFirst(crc: Bytes -> U32, config: Config, s: System<KV>) returns (s': System<KV>)
    requires AtA(s, Full(), 2, 0, 3, 2, [], EMPTY) && AtB(s, Full(), 0, 0, None, EMPTY)
    ensures Takes(crc, config, false, s, RaftSystem.Apply("a", true, EMPTY, 1, false), s')
    ensures s.cluster.messages <= s'.cluster.messages
    ensures AtA(s', Full(), 2, 1, 3, 2, [], OnlyX()) && AtB(s', Full(), 0, 0, None, EMPTY)
  {
    hide Takes, OnlyAt, Applier, Full, OnlyX;
    ApplyingFirst(crc, s.cluster.nodes["a"]);
    s' := ApplyMove(crc, config, s, "a", 1);
    StillB(s, s', Full(), 0, 0, None, EMPTY);
  }

  lemma Compacts(crc: Bytes -> U32, config: Config, s: System<KV>) returns (s': System<KV>)
    requires AtA(s, Full(), 2, 1, 3, 2, [], OnlyX()) && AtB(s, Full(), 0, 0, None, EMPTY)
    ensures Takes(crc, config, false, s, Snap("a", true, true), s') && s.cluster.messages <= s'.cluster.messages
    ensures AtA(s', Cut(), 2, 1, 3, 2, SnapshotOf(OnlyX(), crc), OnlyX()) && AtB(s', Full(), 0, 0, None, EMPTY)
  {
    hide Takes, OnlyAt, CreateSnapshot, Full, Cut, OnlyX, SnapshotOf, IsSnapshot, Savable, Small;
    AllSmall();
    SnapshotSize(OnlyX(), crc);
    Compacting(s.cluster.nodes["a"], s.cluster.disks["a"], SnapshotOf(OnlyX(), crc));
    s' := SnapMove(crc, config, s, "a");
    StillB(s, s', Full(), 0, 0, None, EMPTY);
  }

  lemma BacksOff(crc: Bytes -> U32, config: Config, s: System<KV>, next: nat, data: Bytes) returns (s': System<KV>)
    requires AtA(s, Cut(), 2, 1, next, 2, data, OnlyX()) && AtB(s, Full(), 0, 0, None, EMPTY)
    requires Answers(false) in s.cluster.messages && next > 1
    ensures Takes(crc, config, false, s, Core(DeliverAppendReply(Answers(false), true)), s')
    ensures s.cluster.messages <= s'.cluster.messages
    ensures AtA(s', Cut(), 2, 1, next - 1, 2, data, OnlyX()) && AtB(s', Full(), 0, 0, None, EMPTY)
  {
    hide Takes, OnlyAt, OnAppendReply, Full, Cut, Carries, OnlyX;
    BackingOff(s.cluster.nodes["a"], s.cluster.disks["a"], next, data);
    s' := CoreMove(crc, config, s, DeliverAppendReply(Answers(false), true));
    StillB(s, s', Full(), 0, 0, None, EMPTY);
  }

  lemma Sends(crc: Bytes -> U32, config: Config, s: System<KV>, data: Bytes) returns (s': System<KV>)
    requires AtA(s, Cut(), 2, 1, 1, 2, data, OnlyX()) && AtB(s, Full(), 0, 0, None, EMPTY)
    ensures Takes(crc, config, false, s, Core(Heartbeat("a")), s') && s.cluster.messages <= s'.cluster.messages
    ensures Ships(config, data) in s'.cluster.messages && AtB(s', Full(), 0, 0, None, EMPTY)
  {
    hide Takes, OnlyAt, Broadcast, Full, Cut, Ships, OnlyX;
    Shipping(s.cluster.nodes["a"], s.cluster.disks["a"], config, data);
    s' := CoreMove(crc, config, s, Heartbeat("a"));
    StillB(s, s', Full(), 0, 0, None, EMPTY);
  }

  lemma Learns(crc: Bytes -> U32, config: Config, s: System<KV>) returns (s': System<KV>)
    requires AtB(s, Full(), 0, 0, None, EMPTY) && M_COMMITS in s.cluster.messages
    ensures Takes(crc, config, false, s, Core(DeliverAppend(M_COMMITS, true, true)), s')
    ensures s.cluster.messages <= s'.cluster.messages
    ensures AtB(s', Full(), 2, 0, None, EMPTY)
  {
    hide Takes, HandleAppendEntries, Full;
    Learning(s.cluster.nodes["b"], s.cluster.disks["b"]);
    s' := CoreMove(crc, config, s, DeliverAppend(M_COMMITS, true, true));
  }

  lemma AppliesBoth(crc: Bytes -> U32, config: Config, s: System<KV>) returns (s': System<KV>)
    requires AtB(s, Full(), 2, 0, None, EMPTY)
    ensures Takes(crc, config, false, s, RaftSystem.Apply("b", true, EMPTY, 2, false), s')
    ensures s.cluster.messages <= s'.cluster.messages
    ensures AtB(s', Full(), 2, 2, None, Both())
  {
    hide Takes, Applier, Full, Both;
    ApplyingBoth(crc, s.cluster.nodes["b"]);
    s' := ApplyMove(crc, config, s, "b", 2);
  }

  lemma Installs(crc: Bytes -> U32, config: Config, s: System<KV>, data: Bytes) returns (s': System<KV>)
    requires AtB(s, Full(), 2, 2, None, Both()) && Ships(config, data) in s.cluster.messages
    requires |data| <= config.chunkSize && |data| <= MAX_SNAPSHOT_DATA
    ensures Takes(crc, config, false, s, Core(DeliverSnapshot(Ships(config, data), true, true, true)), s')
    ensures AtB(s', Cut(), 2, 2, Some(Snapshot(1, 1, data)), Both())
  {
    hide Takes, OnlyAt, HandleInstallSnapshot, Full, Cut, Both;
    Installing(s.cluster.nodes["b"], s.cluster.disks["b"], config, data);
    s' := CoreMove(crc, config, s, DeliverSnapshot(Ships(config, data), true, true, true));
  }

  lemma Rewinds(crc: Bytes -> U32, config: Config, s: System<KV>, data: Bytes) returns (s': System<KV>)
    requires AtB(s, Cut(), 2, 2, Some(Snapshot(1, 1, data)), Both()) && IsFirst(data, crc)
    ensures Takes(crc, config, false, s, RaftSystem.Apply("b", true, EMPTY, 1, false), s')
    ensures AtB(s', Cut(), 2, 2, None, OnlyX())
  {
    hide Takes, OnlyAt, Applier, Cut, OnlyX, Both, SnapshotOf, IsSnapshot;
    Restoring(crc, s.cluster.nodes["b"], Both());
    s' := ApplyMove(crc, config, s, "b", 1);
  }

  function FirstMoves(): (moves: seq<Move<KV>>)
    ensures |moves| == 5
  {
    [Core(Timeout("a", true)), Core(DeliverVoteRequest(M_ASKS, true, true)), Core(DeliverVoteReply(M_VOTES, true)),
     Core(Command("a", XBytes(), true)), Core(Command("a", YBytes(), true))]
  }

  lemma First(crc: Bytes -> U32, config: Config) returns (run: seq<System<KV>>)
    ensures |run| == 6 && SystemInit(KvOf(crc), run[0]) && Taken(crc, config, false, run, FirstMoves())
    ensures AtA(run[5], Full(), 0, 0, 1, 0, [], EMPTY) && AtB(run[5], [START], 0, 0, None, EMPTY)
    ensures Appends() in run[5].cluster.messages
  {
    hide Takes, AtA, AtB, Two, NewIs, CandidateIs, SystemInit, Full, PeerCall, XBytes, YBytes;
    var s0 := Begins(crc);
    var s1 := Stands(crc, config, s0);
    var s2 := Votes(crc, config, s1);
    var s3 := Wins(crc, config, s2);
    var s4 := Proposes(crc, config, s3, [START], XBytes());
    var s5 := Proposes(crc, config, s4, [START] + [E1()], YBytes());
    BothThere();
    CallsAt(config, s5);
    run := [s0, s1, s2, s3, s4, s5];
  }

  lemma BothThere()
    ensures [START] + [E1()] + [E2()] == Full()
  {
  }

  lemma CallsAt(config: Config, s: System<KV>)
    requires AtA(s, Full(), 0, 0, 1, 0, [], EMPTY)
    ensures PeerCall(s.cluster.nodes["a"], config, "b") == Appends()
  {
    Calling(s.cluster.nodes["a"], config);
  }

  function SecondMoves(): (moves: seq<Move<KV>>)
    ensures |moves| == 6
  {
    [Core(DeliverAppend(Appends(), true, false)), Core(DeliverAppend(Appends(), true, true)),
     Core(DeliverAppendReply(Answers(true), true)),
     Core(Heartbeat("a")), RaftSystem.Apply("a", true, EMPTY, 1, false), Snap("a", true, true)]
  }

  lemma Second(crc: Bytes -> U32, config: Config, s5: System<KV>) returns (run: seq<System<KV>>)
    requires AtA(s5, Full(), 0, 0, 1, 0, [], EMPTY) && AtB(s5, [START], 0, 0, None, EMPTY)
    requires Appends() in s5.cluster.messages
    ensures |run| == 7 && run[0] == s5 && Taken(crc, config, false, run, SecondMoves())
    ensures AtA(run[6], Cut(), 2, 1, 3, 2, SnapshotOf(OnlyX(), crc), OnlyX()) && AtB(run[6], Full(), 0, 0, None, EMPTY)
    ensures Answers(false) in run[6].cluster.messages && M_COMMITS in run[6].cluster.messages
  {
    hide Takes, AtA, AtB, Full, Cut, OnlyX, SnapshotOf, IsSnapshot, Carries;
    var s6 := Refuses(crc, config, s5);
    var s7 := Accepts(crc, config, s6);
    var s8 := Decides(crc, config, s7);
    var s9 := Announces(crc, config, s8);
    var s10 := AppliesFirst(crc, config, s9);
    var s11 := Compacts(crc, config, s10);
    run := [s5, s6, s7, s8, s9, s10, s11];
  }

  function ThirdMoves(): (moves: seq<Move<KV>>)
    ensures |moves| == 3
  {
    [Core(DeliverAppendReply(Answers(false), true)), Core(DeliverAppendReply(Answers(false), true)),
     Core(Heartbeat("a"))]
  }

  lemma Third(crc: Bytes -> U32, config: Config, s11: System<KV>, data: Bytes) returns (run: seq<System<KV>>)
    requires AtA(s11, Cut(), 2, 1, 3, 2, data, OnlyX()) && AtB(s11, Full(), 0, 0, None, EMPTY)
    requires Answers(false) in s11.cluster.messages && M_COMMITS in s11.cluster.messages
    ensures |run| == 4 && run[0] == s11 && Taken(crc, config, false, run, ThirdMoves())
    ensures AtB(run[3], Full(), 0, 0, None, EMPTY) && Ships(config, data) in run[3].cluster.messages
    ensures M_COMMITS in run[3].cluster.messages
  {
    hide Takes, AtA, AtB, Full, Cut, OnlyX, Carries, Ships;
    var s12 := BacksOff(crc, config, s11, 3, data);
    var s13 := BacksOff(crc, config, s12, 2, data);
    var s14 := Sends(crc, config, s13, data);
    run := [s11, s12, s13, s14];
  }

  function FourthMoves(config: Config, data: Bytes): (moves: seq<Move<KV>>)
    ensures |moves| == 4
  {
    [Core(DeliverAppend(M_COMMITS, true, true)), RaftSystem.Apply("b", true, EMPTY, 2, false),
     Core(DeliverSnapshot(Ships(config, data), true, true, true)), RaftSystem.Apply("b", true, EMPTY, 1, false)]
  }

  lemma SmallData(crc: Bytes -> U32)
    ensures |SnapshotOf(OnlyX(), crc)| <= 200
  {
    hide OnlyX, SnapshotOf, IsSnapshot, Small, Savable;
    AllSmall();
    SnapshotSize(OnlyX(), crc);
  }

  ghost predicate IsFirst(data: Bytes, crc: Bytes -> U32) {
    data == SnapshotOf(OnlyX(), crc)
  }

  lemma Fourth(crc: Bytes -> U32, config: Config, s14: System<KV>, data: Bytes) returns (run: seq<System<KV>>)
    requires AtB(s14, Full(), 0, 0, None, EMPTY) && Ships(config, data) in s14.cluster.messages && IsFirst(data, crc)
    requires M_COMMITS in s14.cluster.messages && |data| <= 200 <= config.chunkSize
    ensures |run| == 5 && run[0] == s14 && Taken(crc, config, false, run, FourthMoves(config, data))
    ensures AtB(run[2], Full(), 2, 2, None, Both()) && AtB(run[4], Cut(), 2, 2, None, OnlyX())
  {
    hide Takes, AtB, Full, Cut, OnlyX, Both, IsFirst, Ships;
    var s15 := Learns(crc, config, s14);
    var s16 := AppliesBoth(crc, config, s15);
    var s17 := Installs(crc, config, s16, data);
    var s18 := Rewinds(crc, config, s17, data);
    run := [s14, s15, s16, s17, s18];
  }

  lemma Whole(crc: Bytes -> U32, config: Config) returns (run: seq<System<KV>>, moves: seq<Move<KV>>)
    requires config.chunkSize >= 200
    ensures Taken(crc, config, false, run, moves) && |moves| == 18 && |run| == 19 && SystemInit(KvOf(crc), run[0])
    ensures AtB(run[16], Full(), 2, 2, None, Both()) && AtB(run[18], Cut(), 2, 2, None, OnlyX())
  {
    hide Taken, AtA, AtB, FirstMoves, SecondMoves, ThirdMoves, FourthMoves, Full, Cut, Both, OnlyX, SnapshotOf,
         IsSnapshot, SystemInit, Carries, Ships;
    var data := SnapshotOf(OnlyX(), crc);
    var first := First(crc, config);
    var second := Second(crc, config, first[5]);
    var third := Third(crc, config, second[6], data);
    SmallData(crc);
    var fourth := Fourth(crc, config, third[3], data);
    Joined(crc, config, false, first, FirstMoves(), second, SecondMoves());
    Joined(crc, config, false, first + second[1..], FirstMoves() + SecondMoves(), third, ThirdMoves());
    run, moves := first + second[1..] + third[1..], FirstMoves() + SecondMoves() + ThirdMoves();
    assert run[0] == first[0] && run[14] == third[3];
    Joined(crc, config, false, run, moves, fourth, FourthMoves(config, data));
    run, moves := run + fourth[1..], moves + FourthMoves(config, data);
    assert run[0] == first[0] && run[16] == fourth[2] && run[18] == fourth[4];
  }

  lemma AtBFacts(s: System<KV>, log: Slice, commit: nat, applied: nat, pending: Option<Snapshot>, app: KV)
    requires AtB(s, log, commit, applied, pending, app)
    ensures "b" in s.apps && "b" in s.cluster.nodes && s.apps["b"] == app
    ensures s.cluster.nodes["b"].lastApplied == applied && s.cluster.nodes["b"].pendingSnapshot == pending
  {
  }

  /** A leader commits two commands with a follower, takes a snapshot of the
      first and sends it because of an old refusal. The follower commits and
      applies both before it arrives: restoring it, the follower loses the
      second command's key and still says that it has applied two. */
  lemma LostCommand(crc: Bytes -> U32, config: Config) returns (run: seq<System<KV>>, moves: seq<Move<KV>>)
    requires config.chunkSize >= 200
    ensures IsFreeRun(KvOf(crc), config, run, moves) && |moves| == 18
    ensures "b" in run[16].apps && "b" in run[16].cluster.nodes && "b" in run[18].apps && "b" in run[18].cluster.nodes
    ensures run[16].cluster.nodes["b"].lastApplied == run[18].cluster.nodes["b"].lastApplied == 2
    ensures run[16].cluster.nodes["b"].pendingSnapshot.None? && run[18].cluster.nodes["b"].pendingSnapshot.None?
    ensures Y_KEY in run[16].apps["b"].store && Y_KEY !in run[18].apps["b"].store
  {
    hide Taken, AtB, Full, Cut, Both, OnlyX, SystemInit, IsFreeRun, IsSystemRun;
    run, moves := Whole(crc, config);
    Runs(crc, config, false, run, moves);
    AtBFacts(run[16], Full(), 2, 2, None, Both());
    AtBFacts(run[18], Cut(), 2, 2, None, OnlyX());
    Different();
  }
}
