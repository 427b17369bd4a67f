/** The cluster with a state machine at every node: committed entries are
    applied in order, snapshots are taken of what has been applied, and
    installed snapshots are restored before anything else is applied. */
module RaftSystem {
  import opened Options
  import opened RaftTypes
  import opened RaftMessages
  import opened RaftLog
  import opened RaftHandlers
  import opened RaftCluster
  import opened RaftStreams
  import opened RaftData
  import opened RaftRuns

  /** The cluster, the state machine of every node, and what the log of its
      store has held after each record. */
  datatype System<S> = System(cluster: Cluster, apps: map<NodeId, S>, logs: map<NodeId, seq<S>>)

  /** What can happen: something at the Raft level; a process that starts over
      on what is left of its store's log; or the applier of a node running
      once. It may be stopped by a fault while restoring, which leaves the
      state machine `damaged`, or after any number of entries, and then the
      store may have logged the next one although it reported a fault. */
  datatype Move<S> =
    | Core(event: Event)
    | Reopen(node: NodeId, kept: nat)
    | Apply(node: NodeId, restored: bool, damaged: S, count: nat, logged: bool)
    | Snap(node: NodeId, saveSnapshot: bool, saveState: bool)

  predicate MayMove<S>(s: System<S>, a: Move<S>) {
    && Valid(s.cluster)
    && s.apps.Keys == s.logs.Keys == s.cluster.nodes.Keys
    && match a
       case Core(e) => !AppliersOwn(e) && !e.Restart? && Enabled(s.cluster, e)
       case Reopen(v, kept) => Enabled(s.cluster, Restart(v)) && 0 < kept <= |s.logs[v]|
       case Apply(v, _, _, _, _) => v in s.cluster.nodes
       case Snap(v, _, _) => v in s.cluster.nodes
  }

  /** One run of the applier: restore what is pending and confirm it, then
      apply up to `count` entries and mark each as applied. */
  function Applier<S>(m: Machine<S>, n: Node, app: S, restored: bool, damaged: S, count: nat): (Node, S)
    requires ValidNode(n)
  {
    if n.pendingSnapshot.None? then ApplyEntries(m, n, app, count)
    else
      var index, state := n.pendingSnapshot.value.index, m.decode(n.pendingSnapshot.value.data);
      if !restored || state.None? then (n, damaged)
      else
        var n' := ConfirmSnapshotRestored(n, index);
        if n'.pendingSnapshot.Some? then (n, state.value) else ApplyEntries(m, n', state.value, count)
  }

  function ApplyEntries<S>(m: Machine<S>, n: Node, app: S, count: nat): (Node, S)
    requires ValidNode(n)
  {
    var entries := CommittedEntries(n, n.lastApplied + 1);
    var batch := if count < |entries| then entries[..count] else entries;
    (if batch == [] then n else MarkApplied(n, batch[|batch| - 1].index), FoldFrom(m, app, batch))
  }

  /** What the applier adds to the log of the store: what it has applied and,
      if the fault came after the record was written, the next entry. */
  function Recorded<S>(m: Machine<S>, n: Node, app: S, logged: bool): (states: seq<S>)
    requires ValidNode(n)
    ensures 1 <= |states| <= 2
  {
    var next := CommittedEntries(n, n.lastApplied + 1);
    [app] + if logged && n.pendingSnapshot.None? && next != [] then [m.apply(app, next[0].command)] else []
  }

  function After<S>(m: Machine<S>, config: Config, s: System<S>, a: Move<S>): System<S>
    requires MayMove(s, a)
  {
    match a
    case Core(e) => s.(cluster := Step(s.cluster, config, e))
    case Reopen(v, kept) =>
      System(Step(s.cluster, config, Restart(v)), s.apps[v := m.restart(s.logs[v][kept - 1])],
             s.logs[v := s.logs[v][..kept]])
    case Apply(v, restored, damaged, count, logged) =>
      var (n, app) := Applier(m, s.cluster.nodes[v], s.apps[v], restored, damaged, count);
      NodeStaysValid(m, s.cluster.nodes[v], s.apps[v], restored, damaged, count);
      System(s.cluster.(nodes := s.cluster.nodes[v := n]), s.apps[v := app],
             s.logs[v := s.logs[v] + Recorded(m, n, app, logged)])
    case Snap(v, saveSnapshot, saveState) =>
      s.(cluster := Step(s.cluster, config, SnapEvent(m, s, v, saveSnapshot, saveState)))
  }

  lemma NodeStaysValid<S>(m: Machine<S>, n: Node, app: S, restored: bool, damaged: S, count: nat)
    requires ValidNode(n)
    ensures Applier(m, n, app, restored, damaged, count).0.log == n.log
  {
    hide CommittedEntries, FoldFrom;
  }

  /** A snapshot is always of everything applied so far. */
  function SnapEvent<S>(m: Machine<S>, s: System<S>, v: NodeId, saveSnapshot: bool, saveState: bool): Event
    requires v in s.cluster.nodes && v in s.apps
  {
    TakeSnapshot(v, s.cluster.nodes[v].lastApplied, m.encode(s.apps[v]), saveSnapshot, saveState)
  }

  lemma AfterReopen<S>(m: Machine<S>, config: Config, s: System<S>, v: NodeId, kept: nat)
    requires MayMove(s, Reopen(v, kept))
    ensures var s' := After(m, config, s, Reopen(v, kept));
            && s'.cluster == Step(s.cluster, config, Restart(v))
            && s'.apps == s.apps[v := m.restart(s.logs[v][kept - 1])]
            && s'.logs == s.logs[v := s.logs[v][..kept]]
  {
    hide Step, Enabled;
  }

  lemma AfterApply<S>(m: Machine<S>, config: Config, s: System<S>, a: Move<S>)
    requires MayMove(s, a) && a.Apply?
    ensures var v, s' := a.node, After(m, config, s, a);
            var (n, app) := Applier(m, s.cluster.nodes[v], s.apps[v], a.restored, a.damaged, a.count);
            && ValidNode(n)
            && s'.cluster == s.cluster.(nodes := s.cluster.nodes[v := n])
            && s'.apps == s.apps[v := app]
            && s'.logs == s.logs[v := s.logs[v] + Recorded(m, n, app, a.logged)]
  {
    hide Applier, Recorded;
    NodeStaysValid(m, s.cluster.nodes[a.node], s.apps[a.node], a.restored, a.damaged, a.count);
  }

  // ------------------------------------------------------------------- runs

  /** No node is left with a snapshot to restore that lies below what it has
      already applied. The code does not check this. */
  predicate NeverBelowApplied(c: Cluster) {
    forall v :: v in c.nodes && c.nodes[v].pendingSnapshot.Some? ==>
      c.nodes[v].lastApplied <= c.nodes[v].pendingSnapshot.value.index
  }

  ghost predicate SystemStep<S>(m: Machine<S>, config: Config, s: System<S>, a: Move<S>, s': System<S>) {
    && MayMove(s, a)
    && (a.Snap? ==> m.savable(s.apps[a.node]))
    && s' == After(m, config, s, a)
  }

  ghost predicate SystemNext<S>(m: Machine<S>, config: Config, s: System<S>, a: Move<S>, s': System<S>) {
    SystemStep(m, config, s, a, s') && NeverBelowApplied(s'.cluster)
  }

  ghost predicate SystemInit<S>(m: Machine<S>, s: System<S>) {
    && Init(s.cluster)
    && s.apps.Keys == s.logs.Keys == s.cluster.nodes.Keys
    && forall v :: v in s.apps ==> s.apps[v] == m.init && s.logs[v] == [m.init]
  }

  ghost predicate IsSystemRun<S>(m: Machine<S>, config: Config, run: seq<System<S>>, moves: seq<Move<S>>) {
    && |run| == |moves| + 1
    && SystemInit(m, run[0])
    && (forall i :: 0 <= i < |moves| ==> SystemNext(m, config, run[i], moves[i], run[i + 1]))
  }

  /** Without the premise about snapshots below what was applied. */
  ghost predicate IsFreeRun<S>(m: Machine<S>, config: Config, run: seq<System<S>>, moves: seq<Move<S>>) {
    && |run| == |moves| + 1
    && SystemInit(m, run[0])
    && (forall i :: 0 <= i < |moves| ==> SystemStep(m, config, run[i], moves[i], run[i + 1]))
  }

  // ---------------------------------------------------------------- leftovers

  /** A history of what earlier lifetimes left: how far those had come whose
      leftovers are in the state machine of a node, in what each record of its
      store's log leads to, and in every snapshot that was saved. */
  datatype Book = Book(reached: map<NodeId, seq<nat>>, logged: map<NodeId, seq<seq<nat>>>, lives: map<Snapshot,
                       seq<nat>>)

  const NO_LEFTOVERS := Book(map[], map[], map[])

  /** A node that is not in the book has no past. */
  function Reached(b: Book, v: NodeId): seq<nat> {
    if v in b.reached then b.reached[v] else []
  }

  function LoggedLives(b: Book, v: NodeId): seq<seq<nat>> {
    if v in b.logged then b.logged[v] else [[0]]
  }

  function LivesOf(b: Book, s: Snapshot): seq<nat> {
    if s in b.lives then b.lives[s] else []
  }

  /** The node has restored what was pending. */
  predicate RestoredNow(n: Node, n': Node) {
    n.pendingSnapshot.Some? && n'.pendingSnapshot.None?
  }

  /** What is reached when the applier has run: a snapshot that is restored
      replaces the leftovers of the node by its own. */
  function ReachedAfter(b: Book, v: NodeId, n: Node, n': Node): seq<nat> {
    if RestoredNow(n, n') then LivesOf(b, n.pendingSnapshot.value) else Reached(b, v)
  }

  /** The lifetimes behind one or two new records of the store's log. */
  function RecordedLives(reached: seq<nat>, applied: nat, count: nat): seq<seq<nat>> {
    [reached + [applied]] + if count == 2 then [reached + [applied + 1]] else []
  }

  /** A process that starts over without a snapshot finds what the log of its
      store holds. A snapshot that is taken carries the leftovers of its node. */
  function BookAfter<S>(s: System<S>, a: Move<S>, s': System<S>, b: Book): Book {
    match a
    case Core(_) => b
    case Reopen(v, kept) =>
      if v in s.cluster.disks && 0 < kept <= |LoggedLives(b, v)| then
        var reached := if s.cluster.disks[v].snapshot.None? then LoggedLives(b, v)[kept - 1] else Reached(b, v);
        b.(reached := b.reached[v := reached], logged := b.logged[v := LoggedLives(b, v)[..kept]])
      else b
    case Apply(v, _, _, _, _) =>
      if v in s.cluster.nodes && v in s'.cluster.nodes && v in s.logs && v in s'.logs
      && |s.logs[v]| <= |s'.logs[v]| then
        var reached := ReachedAfter(b, v, s.cluster.nodes[v], s'.cluster.nodes[v]);
        var lives := RecordedLives(reached, s'.cluster.nodes[v].lastApplied, |s'.logs[v]| - |s.logs[v]|);
        b.(reached := b.reached[v := reached], logged := b.logged[v := LoggedLives(b, v) + lives])
      else b
    case Snap(v, _, _) =>
      if v in s'.cluster.disks && s'.cluster.disks[v].snapshot.Some? && s'.cluster.disks[v].snapshot.value !in b.lives
      then b.(lives := b.lives[s'.cluster.disks[v].snapshot.value := Reached(b, v)])
      else b
  }

  function BookAt<S>(run: seq<System<S>>, moves: seq<Move<S>>, i: nat): Book
    requires i <= |moves| && i < |run|
  {
    if i == 0 then NO_LEFTOVERS else BookAfter(run[i - 1], moves[i - 1], run[i], BookAt(run, moves, i - 1))
  }

  // ---------------------------------------------------------------- invariant

  ghost predicate DataRel<S>(m: Machine<S>, s: System<S>, chosen: seq<Entry>, b: Book) {
    && s.apps.Keys == s.logs.Keys == s.cluster.nodes.Keys == s.cluster.disks.Keys
    && AllGood(m, Past(chosen, b.lives))
    && (forall v :: v in s.apps ==> ValidNode(s.cluster.nodes[v]) && GoodAt(m, s, chosen, b, v))
    && GoodMessages(Past(chosen, b.lives), s.cluster.messages)
  }

  ghost predicate GoodAt<S>(m: Machine<S>, s: System<S>, chosen: seq<Entry>, b: Book, v: NodeId)
    requires v in s.apps && v in s.logs && v in s.cluster.nodes && v in s.cluster.disks && ValidNode(s.cluster.nodes[v])
  {
    var p, reached := Past(chosen, b.lives), Reached(b, v);
    && DrawnFrom(s.cluster.nodes[v], chosen)
    && GoodNode(p, s.cluster.nodes[v], s.cluster.disks[v])
    && GoodState(m, p, reached, s.cluster.nodes[v], s.apps[v])
    && GoodLog(m, p, s.cluster.disks[v], s.logs[v], LoggedLives(b, v))
  }

  // ------------------------------------------------------ installing snapshots

  lemma SameDataGood<S>(m: Machine<S>, p: Past, reached: seq<nat>, n: Node, d: Disk, n': Node, d': Disk, app: S)
    requires SameData(n, d, n', d') && GoodNode(p, n, d) && GoodState(m, p, reached, n, app)
    ensures GoodNode(p, n', d') && GoodState(m, p, reached, n', app)
  {
    hide Carried;
  }

  lemma RecognizeSameData(n: Node, d: Disk, term: nat, save: bool)
    requires ValidNode(n)
    ensures var (n', d', current) := Recognize(n, d, term, save);
            SameData(n, d, n', d') && n'.log == n.log && n'.chunkTransfer == n.chunkTransfer
            && (current ==> n.currentTerm <= term)
  {
  }

  /** A node that is left with nothing to restore below what it has applied. */
  predicate Forward(n: Node) {
    n.pendingSnapshot.Some? ==> n.lastApplied <= n.pendingSnapshot.value.index
  }

  lemma InstallGood<S>(m: Machine<S>, p: Past, reached: seq<nat>, n: Node, d: Disk, snapshot: Snapshot, app: S,
                       saveSnapshot: bool, saveState: bool)
    requires ValidNode(n) && GoodNode(p, n, d) && GoodState(m, p, reached, n, app) && snapshot in p.lives
    ensures var (n', d', _) := Install(n, d, snapshot, saveSnapshot, saveState);
            && ValidNode(n')
            && GoodNode(p, n', d')
            && (Forward(n') ==> GoodState(m, p, reached, n', app))
            && (d'.snapshot.None? ==> d.snapshot.None?)
  {
    hide WithBoundary, Carried;
    CompactedBoundary(n.log, snapshot.index, snapshot.term);
  }

  lemma HandleInstallGood<S>(m: Machine<S>, p: Past, reached: seq<nat>, n: Node, d: Disk, config: Config,
                             args: InstallSnapshotArgs,
                             s: Snapshot, app: S, saveTerm: bool, saveSnapshot: bool, saveState: bool)
    requires ValidNode(n) && GoodNode(p, n, d) && GoodState(m, p, reached, n, app) && s in p.lives && GoodChunk(args, s)
    requires n.currentTerm <= args.term && Boundary(n.log) < s.index ==> OneStream(n.chunkTransfer, args, s)
    ensures var (n', d', _) := HandleInstallSnapshot(n, d, config, args, saveTerm, saveSnapshot, saveState);
            && ValidNode(n')
            && GoodNode(p, n', d')
            && (Forward(n') ==> GoodState(m, p, reached, n', app))
            && (d'.snapshot.None? ==> d.snapshot.None?)
  {
    hide GoodChunk, OneStream, ReceiveChunk, Install, Recognize, Carried;
    var (n1, d1, current) := Recognize(n, d, args.term, saveTerm);
    RecognizeSameData(n, d, args.term, saveTerm);
    SameDataGood(m, p, reached, n, d, n1, d1, app);
    ChunkOf(args, s);
    if current && args.lastIndex > Boundary(n1.log) {
      ReceivesPrefix(config, n1.chunkTransfer, args, s);
      var (transfer, accepted, payload) := ReceiveChunk(n1.chunkTransfer, config, args);
      if accepted && payload.Some? {
        InstallGood(m, p, reached, n1.(role := Follower, leaderId := args.leader, chunkTransfer := None), d1, s, app,
                    saveSnapshot, saveState);
      }
    }
  }

  // ------------------------------------------------- restarting and applying

  /** What a process starts with, on what the log of its store held. */
  lemma RestartGood<S>(m: Machine<S>, p: Past, reached: seq<nat>, n: Node, d: Disk, left: S, v: NodeId)
    requires ValidNode(n) && GoodNode(p, n, d) && NewNode(v, n.peers, d).Some?
    requires d.snapshot.None? ==> Leaves(m, p.chosen, left, reached)
    ensures var n' := NewNode(v, n.peers, d).value; GoodNode(p, n', d) && GoodState(m, p, reached, n', m.restart(left))
  {
    hide Above, Carried, Leaves;
    if d.snapshot.None? {
      LeavesCarried(m, p.chosen, left, reached);
    }
  }

  /** The entries that the applier is given are the next committed ones. */
  lemma NextEntries(n: Node, chosen: seq<Entry>)
    requires DrawnFrom(n, chosen) && Boundary(n.log) <= n.lastApplied <= n.commitIndex <= LastIndex(n.log)
    ensures CommittedEntries(n, n.lastApplied + 1) == chosen[n.lastApplied..n.commitIndex]
  {
    var entries, a, b := CommittedEntries(n, n.lastApplied + 1), n.lastApplied, Boundary(n.log);
    assert |entries| == n.commitIndex - a;
    forall i | 0 <= i < |entries|
      ensures entries[i] == chosen[a + i]
    {
      assert EntryAt(n.log, a + i + 1) == Some(n.log[a + i + 1 - b]);
    }
  }

  lemma ApplyGood<S>(m: Machine<S>, p: Past, reached: seq<nat>, n: Node, d: Disk, app: S, count: nat)
    requires DrawnFrom(n, p.chosen) && Numbered(p.chosen) && n.lastApplied <= n.commitIndex <= LastIndex(n.log)
    requires n.pendingSnapshot.None? && GoodNode(p, n, d) && GoodState(m, p, reached, n, app)
    ensures var (n', app') := ApplyEntries(m, n, app, count);
            && n' == n.(lastApplied := n'.lastApplied) && n.lastApplied <= n'.lastApplied <= n.commitIndex
            && GoodNode(p, n', d) && GoodState(m, p, reached, n', app')
  {
    hide CommittedEntries, DrawnFrom, FoldFrom, Carried;
    DrawnWithin(n, p.chosen);
    NextEntries(n, p.chosen);
    var entries, a := CommittedEntries(n, n.lastApplied + 1), n.lastApplied;
    var batch := if count < |entries| then entries[..count] else entries;
    LastOfBatch(p.chosen, a, batch);
    CarriedOn(m, p.chosen, reached, app, a, batch);
  }

  lemma LastOfBatch(chosen: seq<Entry>, a: nat, batch: seq<Entry>)
    requires a + |batch| <= |chosen| && batch == chosen[a..a + |batch|]
    ensures batch == [] || batch[|batch| - 1] == chosen[a + |batch| - 1]
  {
  }

  lemma DrawnWithin(n: Node, chosen: seq<Entry>)
    requires DrawnFrom(n, chosen)
    ensures ValidNode(n) && n.commitIndex <= |chosen|
  {
  }

  lemma RestoreGood<S>(m: Machine<S>, p: Past, n: Node, d: Disk)
    requires ValidNode(n) && GoodNode(p, n, d) && AllGood(m, p) && n.pendingSnapshot.Some? && Faithful(m)
    requires n.lastApplied <= n.pendingSnapshot.value.index <= n.commitIndex
    ensures m.decode(n.pendingSnapshot.value.data).Some? && n.pendingSnapshot.value in p.lives
    ensures var n' := ConfirmSnapshotRestored(n, n.pendingSnapshot.value.index);
            && n' == n.(lastApplied := n'.lastApplied, pendingSnapshot := None) && n'.lastApplied <= n.commitIndex
            && GoodNode(p, n', d)
            && GoodState(m, p, p.lives[n.pendingSnapshot.value], n', m.decode(n.pendingSnapshot.value.data).value)
  {
    hide GoodSnapshot, Carried, Faithful;
    PayloadRestores(m, p, n.pendingSnapshot.value);
  }

  lemma ApplierGood<S>(m: Machine<S>, b: Book, v: NodeId, p: Past, n: Node, d: Disk, app: S, restored: bool, damaged: S,
                       count: nat)
    requires p.lives == b.lives
    requires DrawnFrom(n, p.chosen) && Numbered(p.chosen) && n.lastApplied <= n.commitIndex <= LastIndex(n.log)
    requires Faithful(m)
    requires GoodNode(p, n, d) && GoodState(m, p, Reached(b, v), n, app) && AllGood(m, p)
    ensures var (n', app') := Applier(m, n, app, restored, damaged, count);
            && n' == n.(lastApplied := n'.lastApplied, pendingSnapshot := n'.pendingSnapshot)
               && n'.lastApplied <= n.commitIndex
            && GoodNode(p, n', d) && GoodState(m, p, ReachedAfter(b, v, n, n'), n', app')
  {
    hide GoodNode, DrawnFrom, Faithful, ApplyEntries, ConfirmSnapshotRestored, Carried, AllGood;
    DrawnWithin(n, p.chosen);
    if n.pendingSnapshot.None? {
      ApplyGood(m, p, Reached(b, v), n, d, app, count);
    } else if restored && m.decode(n.pendingSnapshot.value.data).Some? {
      Confirms(n);
      if n.pendingSnapshot.value.index <= n.commitIndex {
        RestoreGood(m, p, n, d);
        var n' := ConfirmSnapshotRestored(n, n.pendingSnapshot.value.index);
        DrawnSame(n, n', p.chosen);
        ApplyGood(m, p, p.lives[n.pendingSnapshot.value], n', d, m.decode(n.pendingSnapshot.value.data).value, count);
      }
    }
  }

  lemma Confirms(n: Node)
    requires n.pendingSnapshot.Some?
    ensures ConfirmSnapshotRestored(n, n.pendingSnapshot.value.index).pendingSnapshot.None? <==>
              n.pendingSnapshot.value.index <= n.commitIndex
  {
  }

  lemma DrawnSame(n: Node, n': Node, chosen: seq<Entry>)
    requires DrawnFrom(n, chosen) && n'.log == n.log && n'.commitIndex == n.commitIndex
    ensures DrawnFrom(n', chosen)
  {
  }

  /** What the applier adds to the store's log is as good as the state. */
  lemma RecordedGood<S>(m: Machine<S>, p: Past, reached: seq<nat>, n: Node, d: Disk, app: S, log: seq<S>,
                        lives: seq<seq<nat>>, logged: bool)
    requires DrawnFrom(n, p.chosen) && n.lastApplied <= n.commitIndex <= LastIndex(n.log)
    requires GoodNode(p, n, d) && GoodState(m, p, reached, n, app) && GoodLog(m, p, d, log, lives)
    ensures var more := Recorded(m, n, app, logged);
            GoodLog(m, p, d, log + more, lives + RecordedLives(reached, n.lastApplied, |more|))
  {
    hide CommittedEntries, DrawnFrom, Carried, Leaves;
    DrawnWithin(n, p.chosen);
    if d.snapshot.None? {
      CarriedLeaves(m, p.chosen, reached, app, n.lastApplied);
      NextEntries(n, p.chosen);
      var next := CommittedEntries(n, n.lastApplied + 1);
      if next != [] {
        OneMore(m, p.chosen, reached, app, n.lastApplied, next[0]);
        CarriedLeaves(m, p.chosen, reached, m.apply(app, next[0].command), n.lastApplied + 1);
      }
    }
  }

  lemma OneMore<S>(m: Machine<S>, chosen: seq<Entry>, reached: seq<nat>, s: S, n: nat, e: Entry)
    requires Carried(m, chosen, reached, s, n) && n < |chosen| && e == chosen[n]
    ensures Carried(m, chosen, reached, m.apply(s, e.command), n + 1)
  {
    hide Carried;
    assert [e][..0] == [] && FoldFrom(m, s, [e][..0]) == s;
    assert FoldFrom(m, s, [e]) == m.apply(s, e.command);
    CarriedOn(m, chosen, reached, s, n, [e]);
  }

  /** A snapshot that is saved is one of the state machine's exact state. */
  lemma SnapGood<S>(m: Machine<S>, p: Past, reached: seq<nat>, n: Node, d: Disk, app: S, saveSnapshot: bool,
                    saveState: bool)
    requires DrawnFrom(n, p.chosen) && GoodNode(p, n, d) && GoodState(m, p, reached, n, app) && m.savable(app)
    ensures var data := m.encode(app);
            var (n', d') := CreateSnapshot(n, d, n.lastApplied, data, saveSnapshot
                                           && |data| <= MAX_SNAPSHOT_DATA, saveState);
            && ValidNode(n') && n'.pendingSnapshot == n.pendingSnapshot && n'.lastApplied == n.lastApplied
            && (d'.snapshot == d.snapshot || (d'.snapshot.Some? && IsOf(m, p, reached, app, d'.snapshot.value)))
            && (n' == n || (n' == n.(log := n'.log, snapshotData := n'.snapshotData) && d'.snapshot == Some(Held(n'))
                            && Boundary(n'.log) == n.lastApplied && n.pendingSnapshot.None?))
  {
    hide Carried;
    var x := n.lastApplied;
    if Boundary(n.log) < x <= n.commitIndex && TermAt(n.log, x).Some? {
      assert EntryAt(n.log, x) == Some(p.chosen[x - 1]);
    }
  }

  /** The snapshot is of the state machine's state, with its leftovers. */
  ghost predicate IsOf<S>(m: Machine<S>, p: Past, reached: seq<nat>, app: S, s: Snapshot) {
    && Covers(p.chosen, s.index, s.term)
    && Carried(m, p.chosen, reached, app, s.index)
    && m.savable(app) && s.data == m.encode(app) && |s.data| <= MAX_SNAPSHOT_DATA
  }

  // ------------------------------------------------- snapshots that come late

  function Max(a: nat, b: nat): nat {
    if a < b then b else a
  }

  /** Restoring a snapshot leaves the state machine where the node then says
      it is exactly when the commands between the snapshot and what had been
      applied before it change nothing: the state goes back to the snapshot,
      `lastApplied` does not. */
  lemma RestoreExact<S>(m: Machine<S>, p: Past, n: Node, d: Disk, app: S, damaged: S)
    requires ValidNode(n) && GoodNode(p, n, d) && AllGood(m, p) && n.pendingSnapshot.Some? && Faithful(m)
    requires n.pendingSnapshot.value.index <= n.commitIndex && n.lastApplied <= |p.chosen|
    requires Within(p.lives[n.pendingSnapshot.value], n.pendingSnapshot.value.index)
    ensures var index := n.pendingSnapshot.value.index;
            var top := Max(index, n.lastApplied);
            var (n', app') := Applier(m, n, app, true, damaged, 0);
            && ValidNode(n')
            && index <= top <= |p.chosen|
            && n'.pendingSnapshot.None? && n'.lastApplied == top && app' == Fold(m, p.chosen[..index])
            && (GoodState(m, p, p.lives[n.pendingSnapshot.value], n', app')
                <==> Fold(m, p.chosen[..index]) == Fold(m, p.chosen[..top]))
  {
    hide Carried, Faithful, FoldFrom, CommittedEntries, GoodSnapshot;
    var index, lives := n.pendingSnapshot.value.index, p.lives[n.pendingSnapshot.value];
    var n' := ConfirmSnapshotRestored(n, index);
    assert CommittedEntries(n', n'.lastApplied + 1)[..0] == [];
    PayloadRestores(m, p, n.pendingSnapshot.value);
    CoveredIndex(m, p, n.pendingSnapshot.value);
    FoldNothing(m, Fold(m, p.chosen[..index]));
    CarriedExact(m, p.chosen, lives, m.decode(n.pendingSnapshot.value.data).value, index);
    CaughtUp(m, p.chosen, lives, Fold(m, p.chosen[..index]), n'.lastApplied);
  }

  lemma CaughtUp<S>(m: Machine<S>, chosen: seq<Entry>, reached: seq<nat>, s: S, n: nat)
    requires n <= |chosen| && Within(reached, n) && Faithful(m)
    ensures Carried(m, chosen, reached, s, n) <==> s == Fold(m, chosen[..n])
  {
    hide Faithful, FoldFrom, Left;
    CarriedExact(m, chosen, reached, Resumed(m, chosen, reached, n), n);
  }

  lemma CoveredIndex<S>(m: Machine<S>, p: Past, s: Snapshot)
    requires GoodSnapshot(m, p, s)
    ensures s.index <= |p.chosen| && Within(p.lives[s], |p.chosen|)
  {
  }

  lemma FoldNothing<S>(m: Machine<S>, s: S)
    ensures FoldFrom(m, s, []) == s
  {
  }
}
