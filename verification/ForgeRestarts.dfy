/** Runs of the database in which what an earlier process had stored shows: a
    node that has applied one command again holds the key of the second, which
    that process had applied, or had only logged. */
module ForgeRestarts {
  import opened Options
  import opened LittleEndian
  import opened KvMachine
  import opened KvSnapshots
  import opened RaftTypes
  import opened RaftMessages
  import opened RaftLog
  import opened RaftHandlers
  import opened RaftCluster
  import opened RaftStreams
  import opened RaftData
  import opened RaftSystem
  import opened RaftSystemRuns
  import opened ForgeDb
  import opened ForgeCases
  import L = RaftLimits

  function E3(): Entry { Entry(3, 2, XBytes()) }

  /** Node "a", alone, with its disk and its store. */
  ghost predicate Lone(s: System<KV>, role: Role, term: nat, log: Slice, commit: nat, applied: nat, app: KV) {
    && s.apps.Keys == s.logs.Keys == s.cluster.nodes.Keys == s.cluster.disks.Keys == {"a"}
    && s.apps["a"] == app
    && LoneNode(s.cluster.nodes["a"], role, term, log, commit, applied)
    && s.cluster.disks["a"] == Disk(Some(PersistentState(term, "a", if log == [] then [] else log[1..])), None)
  }

  /** What the log of its store holds, last. */
  ghost predicate Ends(s: System<KV>, records: nat, last: KV) {
    "a" in s.logs && |s.logs["a"]| == records > 0 && s.logs["a"][records - 1] == last
  }

  ghost predicate LoneNode(n: Node, role: Role, term: nat, log: Slice, commit: nat, applied: nat) {
    && n.id == "a" && n.peers == [] && n.currentTerm == term && n.votedFor == "a" && n.role == role
    && n.log == log && |log| > 0 && log[0] == START && n.commitIndex == commit && n.lastApplied == applied
       && n.pendingSnapshot.None?
  }

  // ------------------------------------------------------------------ events

  lemma Elect(n: Node, d: Disk, config: Config)
    requires n.peers == [] && n.id == "a" && |n.log| > 0 && n.log[0] == START && n.commitIndex == 0
    requires n.pendingSnapshot.None?
    requires forall i :: 0 <= i < |n.log| ==> n.log[i].term <= n.currentTerm
    ensures var out, term := StartElection(n, d, config, true), n.currentTerm + 1;
            && LoneNode(out.node, Leader, term, n.log, 0, n.lastApplied)
            && out.disk == Disk(Some(PersistentState(term, "a", n.log[1..])), d.snapshot)
            && out.sent == {}
  {
    hide PeerCall, HighestCommittable, Committable;
    var leader :=
        n.(currentTerm := n.currentTerm + 1, votedFor := n.id, role := Leader, leaderId := n.id, votesReceived := {},
                     nextIndex := Assigned(n.peers, LastIndex(n.log) + 1), matchIndex := Assigned(n.peers, 0));
    assert |{n.id}| == 1;
    NothingOwn(leader, LastIndex(n.log));
  }

  lemma {:induction false} NothingOwn(n: Node, upTo: nat)
    requires |n.log| > 0 && forall i :: 0 <= i < |n.log| ==> n.log[i].term < n.currentTerm
    ensures HighestCommittable(n, upTo) == n.commitIndex
  {
    if upTo > n.commitIndex {
      assert !Committable(n, upTo);
      NothingOwn(n, upTo - 1);
    }
  }

  lemma Append(n: Node, d: Disk, config: Config, command: Bytes, term: nat, log: Slice, commit: nat, applied: nat)
    requires LoneNode(n, Leader, term, log, commit, applied) && commit < |log|
    ensures var out, log' := Propose(n, d, config, command, true), log + [Entry(|log|, term, command)];
            && LoneNode(out.node, Leader, term, log', |log|, applied)
            && out.disk == Disk(Some(PersistentState(term, "a", log'[1..])), d.snapshot)
            && out.sent == {}
  {
    hide PeerCall, AdvanceCommit;
    var n' := n.(log := log + [Entry(|log|, term, command)]);
    L.SoloLast(n');
    L.SoloAdvance(n');
  }

  lemma Reload(n: Node, d: Disk, term: nat, log: Slice)
    requires |log| > 0 && log[0] == START && d == Disk(Some(PersistentState(term, "a", log[1..])), None)
    requires n.peers == []
    ensures var n' := NewNode("a", n.peers, d); n'.Some? && LoneNode(n'.value, Follower, term, log, 0, 0)
  {
  }

  lemma ApplyOne(crc: Bytes -> U32, n: Node, app: KV, role: Role, term: nat, log: Slice, commit: nat, applied: nat)
    requires LoneNode(n, role, term, log, commit, applied) && applied < commit < |log| && WellFormed(log)
    ensures var (n', app') := RaftSystem.Applier(KvOf(crc), n, app, true, EMPTY, 1);
            && LoneNode(n', role, term, log, commit, applied + 1)
            && app' == ForgeDb.Step(app, log[applied + 1].command)
  {
    hide ForgeDb.Step;
    var entries := CommittedEntries(n, applied + 1);
    assert entries[0] == log[applied + 1];
    var batch := if 1 < |entries| then entries[..1] else entries;
    assert batch == [log[applied + 1]];
    assert batch[..0] == [];
    assert FoldFrom(KvOf(crc), app, batch[..0]) == app;
  }

  /** What the store's log has after that, and with the next entry. */
  lemma RecordOne(crc: Bytes -> U32, n: Node, app: KV, role: Role, term: nat, log: Slice, commit: nat, applied: nat,
                  logged: bool)
    requires LoneNode(n, role, term, log, commit, applied) && applied <= commit < |log| && WellFormed(log)
    requires (logged ==> applied < commit)
    ensures RaftSystem.Recorded(KvOf(crc), n, app, logged)
            == [app] + if logged then [ForgeDb.Step(app, log[applied + 1].command)] else []
  {
    hide ForgeDb.Step;
    if logged {
      assert CommittedEntries(n, applied + 1)[0] == log[applied + 1];
    }
  }

  lemma TakeOne(n: Node, d: Disk, data: Bytes, term: nat, log: Slice, commit: nat)
    requires LoneNode(n, Leader, term, log, commit, 1) && |log| > 1 && commit > 0
    ensures CreateSnapshot(n, d, 1, data, true, true).1.snapshot == Some(Snapshot(1, log[1].term, data))
    ensures ValidNode(CreateSnapshot(n, d, 1, data, true, true).0)
    ensures CreateSnapshot(n, d, 1, data, true, true).0.pendingSnapshot.None?
  {
  }

  // ------------------------------------------------------------------- moves

  predicate Alone(s: System<KV>) {
    s.apps.Keys == s.logs.Keys == s.cluster.nodes.Keys == s.cluster.disks.Keys == {"a"}
    && ValidNode(s.cluster.nodes["a"])
  }

  lemma CoreMove(crc: Bytes -> U32, config: Config, s: System<KV>, e: Event) returns (s': System<KV>)
    requires Alone(s) && Enabled(s.cluster, e) && Place(e) == "a" && !AppliersOwn(e) && !e.Restart?
    requires ValidNode(Act(s.cluster, config, e).node) && Act(s.cluster, config, e).node.pendingSnapshot.None?
    ensures Takes(crc, config, true, s, Core(e), s') && Alone(s')
    ensures s'.cluster.nodes["a"] == Act(s.cluster, config, e).node
    ensures s'.cluster.disks["a"] == Act(s.cluster, config, e).disk
    ensures s'.apps == s.apps && s'.logs == s.logs
  {
    hide Act, Enabled, ReadsAfter;
    ValidAlone(s, e);
    s' := After(KvOf(crc), config, s, Core(e));
  }

  lemma ValidAlone(s: System<KV>, e: Event)
    requires Enabled(s.cluster, e)
    ensures Valid(s.cluster)
  {
  }

  lemma Timeouts(crc: Bytes -> U32, config: Config, s: System<KV>) returns (s': System<KV>)
    requires Alone(s) && s.cluster.nodes["a"].role != Leader && s.cluster.disks["a"].snapshot.None?
    requires var n := s.cluster.nodes["a"];
             && n.peers == [] && n.id == "a" && n.log[0] == START && n.commitIndex == 0 && n.pendingSnapshot.None?
             && forall i :: 0 <= i < |n.log| ==> n.log[i].term <= n.currentTerm
    ensures Takes(crc, config, true, s, Core(Timeout("a", true)), s')
    ensures var n := s.cluster.nodes["a"]; Lone(s', Leader, n.currentTerm + 1, n.log, 0, n.lastApplied, s.apps["a"])
    ensures s'.logs == s.logs
  {
    hide StartElection, Takes;
    Elect(s.cluster.nodes["a"], s.cluster.disks["a"], config);
    s' := CoreMove(crc, config, s, Timeout("a", true));
  }

  lemma Commands(crc: Bytes -> U32, config: Config, s: System<KV>, command: Bytes, term: nat, log: Slice, commit: nat,
                 applied: nat, app: KV)
      returns (s': System<KV>)
    requires Lone(s, Leader, term, log, commit, applied, app) && commit < |log|
    ensures Takes(crc, config, true, s, Core(Command("a", command, true)), s')
    ensures Lone(s', Leader, term, log + [Entry(|log|, term, command)], |log|, applied, app) && s'.logs == s.logs
  {
    hide Propose, Takes;
    Append(s.cluster.nodes["a"], s.cluster.disks["a"], config, command, term, log, commit, applied);
    s' := CoreMove(crc, config, s, Command("a", command, true));
  }

  lemma Restarts(crc: Bytes -> U32, config: Config, s: System<KV>, term: nat, log: Slice, commit: nat, applied: nat,
                 app: KV, records: nat, last: KV)
      returns (s': System<KV>)
    requires Lone(s, Leader, term, log, commit, applied, app) && Ends(s, records, last)
    ensures Takes(crc, config, true, s, Reopen("a", records), s')
    ensures Lone(s', Follower, term, log, 0, 0, Reopened(last)) && Ends(s', records, last)
  {
    hide NewNode, Takes;
    Reload(s.cluster.nodes["a"], s.cluster.disks["a"], term, log);
    s' := ReopenMove(crc, config, s, records);
  }

  lemma ReopenMove(crc: Bytes -> U32, config: Config, s: System<KV>, kept: nat) returns (s': System<KV>)
    requires Alone(s) && 0 < kept <= |s.logs["a"]|
    requires var n := NewNode("a", s.cluster.nodes["a"].peers, s.cluster.disks["a"]);
             n.Some? && ValidNode(n.value) && n.value.pendingSnapshot.None?
    ensures Takes(crc, config, true, s, Reopen("a", kept), s') && Alone(s')
    ensures s'.apps["a"] == Reopened(s.logs["a"][kept - 1]) && s'.logs["a"] == s.logs["a"][..kept]
    ensures s'.cluster.nodes["a"] == NewNode("a", s.cluster.nodes["a"].peers, s.cluster.disks["a"]).value
    ensures s'.cluster.disks["a"] == s.cluster.disks["a"]
  {
    hide NewNode, Act, Enabled, KvOf, Reopened, After, RaftCluster.Step;
    RestartAlone(config, s.cluster);
    RestartOf(crc, s.logs["a"][kept - 1]);
    AfterReopen(KvOf(crc), config, s, "a", kept);
    StepMaps(s.cluster, config, Restart("a"));
    s' := After(KvOf(crc), config, s, Reopen("a", kept));
  }

  lemma RestartOf(crc: Bytes -> U32, s: KV)
    ensures KvOf(crc).restart(s) == Reopened(s)
  {
  }

  lemma RestartAlone(config: Config, c: Cluster)
    requires c.nodes.Keys == c.disks.Keys == {"a"} && ValidNode(c.nodes["a"])
    requires NewNode("a", c.nodes["a"].peers, c.disks["a"]).Some?
    ensures Enabled(c, Restart("a")) && Valid(c)
    ensures Act(c, config, Restart("a"))
            == Outcome(NewNode("a", c.nodes["a"].peers, c.disks["a"]).value, c.disks["a"], {})
  {
    hide NewNode;
  }

  function ApplyMove(logged: bool): Move<KV> {
    RaftSystem.Apply("a", true, EMPTY, 1, logged)
  }

  lemma Applies(crc: Bytes -> U32, config: Config, s: System<KV>, term: nat, log: Slice, commit: nat, applied: nat,
                app: KV, records: nat, last: KV, logged: bool)
      returns (s': System<KV>)
    requires Lone(s, Leader, term, log, commit, applied, app) && applied < commit < |log| && WellFormed(log)
    requires Ends(s, records, last)
    requires logged ==> applied + 1 < commit
    ensures Takes(crc, config, true, s, ApplyMove(logged), s')
    ensures var app' := ForgeDb.Step(app, log[applied + 1].command);
            && Lone(s', Leader, term, log, commit, applied + 1, app')
            && (if logged then Ends(s', records + 2, ForgeDb.Step(app', log[applied + 2].command))
                else Ends(s', records + 1, app'))
  {
    hide RaftSystem.Applier, RaftSystem.Recorded, ForgeDb.Step, WellFormed, KvOf, Takes;
    ApplyOne(crc, s.cluster.nodes["a"], app, Leader, term, log, commit, applied);
    var (n', app') := RaftSystem.Applier(KvOf(crc), s.cluster.nodes["a"], app, true, EMPTY, 1);
    RecordOne(crc, n', app', Leader, term, log, commit, applied + 1, logged);
    s' := AppliesAlone(crc, config, s, n', app', logged);
  }

  lemma AppliesAlone(crc: Bytes -> U32, config: Config, s: System<KV>, n': Node, app': KV, logged: bool)
      returns (s': System<KV>)
    requires Alone(s) && (n', app') == RaftSystem.Applier(KvOf(crc), s.cluster.nodes["a"], s.apps["a"], true, EMPTY, 1)
    requires ValidNode(n') && n'.pendingSnapshot.None?
    ensures Takes(crc, config, true, s, ApplyMove(logged), s')
    ensures Alone(s') && s'.apps["a"] == app'
    ensures s'.logs["a"] == s.logs["a"] + RaftSystem.Recorded(KvOf(crc), n', app', logged)
    ensures s'.cluster.nodes["a"] == n' && s'.cluster.disks == s.cluster.disks
  {
    hide RaftSystem.Applier, RaftSystem.Recorded, KvOf, After;
    AfterApply(KvOf(crc), config, s, ApplyMove(logged));
    s' := After(KvOf(crc), config, s, ApplyMove(logged));
  }

  lemma Snaps(crc: Bytes -> U32, config: Config, s: System<KV>, term: nat, log: Slice, commit: nat, app: KV)
      returns (s': System<KV>)
    requires Lone(s, Leader, term, log, commit, 1, app) && |log| > 1 && commit > 0 && Small(app)
    ensures Takes(crc, config, true, s, Snap("a", true, true), s')
    ensures "a" in s'.cluster.disks
    ensures s'.cluster.disks["a"].snapshot == Some(Snapshot(1, log[1].term, SnapshotOf(app, crc)))
  {
    hide CreateSnapshot, SnapshotOf, IsSnapshot, Small, Savable;
    SnapshotSize(app, crc);
    TakeOne(s.cluster.nodes["a"], s.cluster.disks["a"], SnapshotOf(app, crc), term, log, commit);
    s' := After(KvOf(crc), config, s, Snap("a", true, true));
  }

  // ----------------------------------------------------------------- the run

  function Long(): (l: Slice)
    ensures |l| == 4 && l[1] == E1()
  {
    [START, E1(), E2(), E3()]
  }

  lemma Logs()
    ensures [START] + [E1()] + [E2()] == Full() && Full() + [E3()] == Long() && WellFormed(Full()) && WellFormed(Long())
    ensures forall i :: 0 <= i < |Full()| ==> Full()[i].term <= 1
  {
  }

  lemma Begins(crc: Bytes -> U32, config: Config) returns (s0: System<KV>, s1: System<KV>)
    ensures SystemInit(KvOf(crc), s0)
    ensures Takes(crc, config, true, s0, Core(Timeout("a", true)), s1)
    ensures Lone(s1, Leader, 1, [START], 0, 0, EMPTY) && Ends(s1, 1, EMPTY)
  {
    hide Takes;
    var d := Disk(None, None);
    var n := NewNode("a", [], d).value;
    s0 := System(Cluster(map["a" := n], map["a" := d], {}, map[]), map["a" := EMPTY], map["a" := [EMPTY]]);
    assert PeersOf([], "a", {"a"});
    s1 := Timeouts(crc, config, s0);
  }

  /** Both commands are committed. Either both are applied, or the first is and
      the second fails when its record is in the log and cannot be synced. */
  function FirstMoves(unsynced: bool): (moves: seq<Move<KV>>)
    ensures |moves| == if unsynced then 4 else 5
    ensures moves[|moves| - 1] == Reopen("a", 3)
  {
    [Core(Command("a", XBytes(), true)), Core(Command("a", YBytes(), true))]
    + (if unsynced then [ApplyMove(true)] else [ApplyMove(false), ApplyMove(false)]) + [Reopen("a", 3)]
  }

  lemma FirstLife(crc: Bytes -> U32, config: Config, s1: System<KV>, unsynced: bool) returns (run: seq<System<KV>>)
    requires Lone(s1, Leader, 1, [START], 0, 0, EMPTY) && Ends(s1, 1, EMPTY)
    ensures |run| == |FirstMoves(unsynced)| + 1 && run[0] == s1 && Taken(crc, config, true, run, FirstMoves(unsynced))
    ensures Lone(run[3], Leader, 1, Full(), 2, 1, OnlyX())
    ensures Lone(run[|FirstMoves(unsynced)|], Follower, 1, Full(), 0, 0, Reopened(Both()))
    ensures Ends(run[|FirstMoves(unsynced)|], 3, Both())
  {
    hide Takes, Lone, OnlyX, Both, XBytes, YBytes, ForgeDb.Step, Reopened, Full, WellFormed;
    Steps();
    Logs();
    var log := Full();
    var s2 := Commands(crc, config, s1, XBytes(), 1, [START], 0, 0, EMPTY);
    var s3 := Commands(crc, config, s2, YBytes(), 1, [START] + [E1()], 1, 0, EMPTY);
    var s4 := Applies(crc, config, s3, 1, log, 2, 0, EMPTY, 1, EMPTY, unsynced);
    if unsynced {
      var s5 := Restarts(crc, config, s4, 1, log, 2, 1, OnlyX(), 3, Both());
      run := [s1, s2, s3, s4, s5];
    } else {
      var s5 := Applies(crc, config, s4, 1, log, 2, 1, OnlyX(), 2, OnlyX(), false);
      var s6 := Restarts(crc, config, s5, 1, log, 2, 2, Both(), 3, Both());
      run := [s1, s2, s3, s4, s5, s6];
    }
  }

  lemma Reelects(crc: Bytes -> U32, config: Config, s: System<KV>, term: nat, log: Slice, app: KV)
      returns (s': System<KV>)
    requires Lone(s, Follower, term, log, 0, 0, app) && forall i :: 0 <= i < |log| ==> log[i].term <= term
    ensures Takes(crc, config, true, s, Core(Timeout("a", true)), s') && Lone(s', Leader, term + 1, log, 0, 0, app)
    ensures s'.logs == s.logs
  {
    hide Takes;
    s' := Timeouts(crc, config, s);
  }

  function SecondMoves(): (moves: seq<Move<KV>>)
    ensures |moves| == 4
  {
    [Core(Timeout("a", true)), Core(Command("a", XBytes(), true)), ApplyMove(false), Snap("a", true, true)]
  }

  lemma SecondLife(crc: Bytes -> U32, config: Config, s6: System<KV>) returns (run: seq<System<KV>>)
    requires Lone(s6, Follower, 1, Full(), 0, 0, Reopened(Both())) && Ends(s6, 3, Both())
    ensures |run| == 5 && run[0] == s6 && Taken(crc, config, true, run, SecondMoves())
    ensures Lone(run[3], Leader, 2, Long(), 3, 1, Ahead())
    ensures "a" in run[4].cluster.disks
    ensures run[4].cluster.disks["a"].snapshot == Some(Snapshot(1, 1, SnapshotOf(Ahead(), crc)))
  {
    hide Takes, Lone, XBytes, YBytes, Both, Ahead, ForgeDb.Step, SnapshotOf, IsSnapshot, Small, Reopened, Full, Long,
         WellFormed;
    Steps();
    Logs();
    AllSmall();
    var log, longer := Full(), Long();
    var s7 := Reelects(crc, config, s6, 1, log, Reopened(Both()));
    var s8 := Commands(crc, config, s7, XBytes(), 2, log, 0, 0, Reopened(Both()));
    var s9 := Applies(crc, config, s8, 2, longer, 3, 0, Reopened(Both()), 3, Both(), false);
    var s10 := Snaps(crc, config, s9, 2, longer, 3, Ahead());
    run := [s6, s7, s8, s9, s10];
  }

  lemma Lives(crc: Bytes -> U32, config: Config, unsynced: bool) returns (run: seq<System<KV>>, moves: seq<Move<KV>>)
    ensures Taken(crc, config, true, run, moves) && |moves| == (if unsynced then 9 else 10) && |run| == |moves| + 1
    ensures moves[|moves| - 5] == Reopen("a", 3)
    ensures SystemInit(KvOf(crc), run[0])
    ensures Lone(run[4], Leader, 1, Full(), 2, 1, OnlyX()) && Lone(run[|moves| - 1], Leader, 2, Long(), 3, 1, Ahead())
    ensures "a" in run[|moves|].cluster.disks
    ensures run[|moves|].cluster.disks["a"].snapshot == Some(Snapshot(1, 1, SnapshotOf(Ahead(), crc)))
  {
    hide Takes, Taken, Lone, Ends, FirstMoves, SecondMoves, Full, Long, Both, Ahead, OnlyX, SnapshotOf, IsSnapshot,
         Reopened, SystemInit;
    var s0, s1 := Begins(crc, config);
    var k := |FirstMoves(unsynced)|;
    var first := FirstLife(crc, config, s1, unsynced);
    var second := SecondLife(crc, config, first[k]);
    var start := [Core(Timeout("a", true))];
    OneTaken(crc, config, true, s0, start[0], s1);
    Joined(crc, config, true, [s0, s1], start, first, FirstMoves(unsynced));
    Joined(crc, config, true, [s0, s1] + first[1..], start + FirstMoves(unsynced), second, SecondMoves());
    run, moves := [s0, s1] + first[1..] + second[1..], start + FirstMoves(unsynced) + SecondMoves();
    assert run[0] == s0 && run[4] == first[3] && run[k + 4] == second[3] && run[k + 5] == second[4];
  }

  /** Two commands are committed, the process starts over without a snapshot
      and applies the first again: the same node has then applied equally far
      twice, with the second command's key missing once and present once, and
      the snapshot that it takes of one command holds it too. It makes no
      difference whether the second had been applied, or had only been logged
      by a write that was reported as failed. */
  lemma LeftoverShows(crc: Bytes -> U32, config: Config, unsynced: bool)
      returns (run: seq<System<KV>>, moves: seq<Move<KV>>)
    ensures IsSystemRun(KvOf(crc), config, run, moves) && |moves| == (if unsynced then 9 else 10)
    ensures moves[|moves| - 5] == Reopen("a", 3)
    ensures "a" in run[4].apps && "a" in run[4].cluster.nodes
    ensures "a" in run[|moves| - 1].apps && "a" in run[|moves| - 1].cluster.nodes
    ensures run[4].cluster.nodes["a"].lastApplied == run[|moves| - 1].cluster.nodes["a"].lastApplied == 1
    ensures run[4].cluster.nodes["a"].pendingSnapshot.None? && run[|moves| - 1].cluster.nodes["a"].pendingSnapshot.None?
    ensures Y_KEY !in run[4].apps["a"].store && Y_KEY in run[|moves| - 1].apps["a"].store
    ensures "a" in run[|moves|].cluster.disks && run[|moves|].cluster.disks["a"].snapshot.Some?
    ensures var snapshot := run[|moves|].cluster.disks["a"].snapshot.value;
            snapshot.index == 1 && ForgeDb.Restored(snapshot.data, crc).Some?
            && Y_KEY in ForgeDb.Restored(snapshot.data, crc).value.store
  {
    hide Taken, Lone, Full, Long, Ahead, OnlyX, SnapshotOf, IsSnapshot, Small, ForgeDb.Restored, SystemInit, WellTyped,
         IsSystemRun, IsFreeRun;
    run, moves := Lives(crc, config, unsynced);
    Runs(crc, config, true, run, moves);
    LoneFacts(run[4], Leader, 1, Full(), 2, 1, OnlyX());
    LoneFacts(run[|moves| - 1], Leader, 2, Long(), 3, 1, Ahead());
    Different();
    AllSmall();
    AllWellTyped();
    GivesBack(Ahead(), crc);
  }

  lemma LoneFacts(s: System<KV>, role: Role, term: nat, log: Slice, commit: nat, applied: nat, app: KV)
    requires Lone(s, role, term, log, commit, applied, app)
    ensures "a" in s.apps && "a" in s.cluster.nodes && s.apps["a"] == app
    ensures s.cluster.nodes["a"].lastApplied == applied && s.cluster.nodes["a"].pendingSnapshot.None?
  {
  }
}
