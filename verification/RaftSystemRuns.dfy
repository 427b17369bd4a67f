/** Every run of the whole system: what the state machines hold and what the
    snapshots contain. */
module RaftSystemRuns {
  import opened Options
  import opened RaftTypes
  import opened RaftMessages
  import opened RaftLog
  import opened RaftHandlers
  import opened RaftCluster
  import opened RaftStreams
  import opened RaftData
  import opened RaftSystem
  import R = RaftRefinement
  import Sim = RaftSimulation
  import opened RaftSafety
  import opened RaftRuns
  import opened RaftTornSim
  import C = Consensus
  import P = ConsensusProofs

  ghost predicate SystemRel<S>(m: Machine<S>, s: System<S>, h: C.State, b: Book) {
    R.Rel(s.cluster, h) && Streams(s.cluster) && DataRel(m, s, h.chosen, b)
  }

  lemma PartsOf<S>(m: Machine<S>, s: System<S>, h: C.State, b: Book)
    requires SystemRel(m, s, h, b)
    ensures R.Rel(s.cluster, h) && Streams(s.cluster) && DataRel(m, s, h.chosen, b)
  {
  }

  // ---------------------------------------------------------- one node moves

  /** Only node `v` changed. */
  ghost predicate OnlyAt<S>(s: System<S>, s': System<S>, v: NodeId) {
    && v in s.apps
    && s.apps.Keys == s.logs.Keys == s.cluster.nodes.Keys == s.cluster.disks.Keys
    && s'.apps.Keys == s'.logs.Keys == s'.cluster.nodes.Keys == s'.cluster.disks.Keys == s.apps.Keys
    && forall u :: u in s.apps && u != v ==>
         && s'.cluster.nodes[u] == s.cluster.nodes[u] && s'.cluster.disks[u] == s.cluster.disks[u]
         && s'.apps[u] == s.apps[u] && s'.logs[u] == s.logs[u]
  }

  /** Only the leftovers of node `v` and of new snapshots changed. */
  ghost predicate BookMoves(b: Book, b': Book, v: NodeId) {
    && (forall u :: u != v ==> Reached(b', u) == Reached(b, u) && LoggedLives(b', u) == LoggedLives(b, u))
    && forall s :: s in b.lives ==> s in b'.lives && b'.lives[s] == b.lives[s]
  }

  /** What changed is good, and so is what was sent. */
  ghost predicate GoodThere<S>(m: Machine<S>, s: System<S>, s': System<S>, v: NodeId, chosen: seq<Entry>, b: Book)
    requires OnlyAt(s, s', v)
  {
    && AllGood(m, Past(chosen, b.lives))
    && ValidNode(s'.cluster.nodes[v])
    && GoodAt(m, s', chosen, b, v)
    && GoodMessages(Past(chosen, b.lives), s'.cluster.messages - s.cluster.messages)
  }

  lemma DataMoves<S>(m: Machine<S>, s: System<S>, s': System<S>, v: NodeId, chosen: seq<Entry>, chosen': seq<Entry>,
                     b: Book, b': Book)
    requires OnlyAt(s, s', v) && GoodThere(m, s, s', v, chosen', b') && BookMoves(b, b', v) && chosen <= chosen'
    requires DataRel(m, s, chosen, b)
    ensures DataRel(m, s', chosen', b')
  {
    hide GoodAt, AllGood, BookMoves, GoodMessages;
    forall u | u in s'.apps
      ensures ValidNode(s'.cluster.nodes[u]) && GoodAt(m, s', chosen', b', u)
    {
      if u != v {
        OtherMoves(m, s, s', v, u, chosen, chosen', b, b');
      }
    }
    MessagesMove(Past(chosen, b.lives), Past(chosen', b'.lives), b, b', v, s.cluster.messages, s'.cluster.messages);
  }

  lemma OtherMoves<S>(m: Machine<S>, s: System<S>, s': System<S>, v: NodeId, u: NodeId, chosen: seq<Entry>,
                      chosen': seq<Entry>, b: Book, b': Book)
    requires OnlyAt(s, s', v) && BookMoves(b, b', v) && chosen <= chosen' && u in s.apps && u != v
    requires DataRel(m, s, chosen, b)
    ensures ValidNode(s'.cluster.nodes[u]) && GoodAt(m, s', chosen', b', u)
  {
    hide DrawnFrom, GoodNode, GoodState, GoodLog, DataRel, Reached, LoggedLives;
    LaterAt(m, s, chosen, chosen', b, b', u);
  }

  lemma MessagesMove(p: Past, p': Past, b: Book, b': Book, v: NodeId, sent: set<Message>, sent': set<Message>)
    requires BookMoves(b, b', v) && p.lives == b.lives && p'.lives == b'.lives
    requires GoodMessages(p, sent) && GoodMessages(p', sent' - sent)
    ensures GoodMessages(p', sent')
  {
  }

  lemma DrawnLater(n: Node, chosen: seq<Entry>, chosen': seq<Entry>)
    requires DrawnFrom(n, chosen) && chosen <= chosen'
    ensures DrawnFrom(n, chosen')
  {
  }

  /** What was good at a node stays good as history goes on. */
  lemma LaterAt<S>(m: Machine<S>, s: System<S>, chosen: seq<Entry>, chosen': seq<Entry>, b: Book, b': Book, u: NodeId)
    requires DataRel(m, s, chosen, b) && chosen <= chosen' && u in s.apps
    requires forall x :: x in b.lives ==> x in b'.lives && b'.lives[x] == b.lives[x]
    ensures ValidNode(s.cluster.nodes[u]) && DrawnFrom(s.cluster.nodes[u], chosen')
    ensures var p := Past(chosen', b'.lives);
            && GoodNode(p, s.cluster.nodes[u], s.cluster.disks[u])
            && GoodState(m, p, Reached(b, u), s.cluster.nodes[u], s.apps[u])
            && GoodLog(m, p, s.cluster.disks[u], s.logs[u], LoggedLives(b, u))
  {
    hide GoodNode, GoodState, GoodLog, DrawnFrom, AllGood, GoodMessages;
    var p, p', n, d := Past(chosen, b.lives), Past(chosen', b'.lives), s.cluster.nodes[u], s.cluster.disks[u];
    assert GoodAt(m, s, chosen, b, u);
    NodeForward(p, p', n, d);
    StateForward(m, p, p', Reached(b, u), n, s.apps[u]);
    LogForward(m, p, p', d, s.logs[u], LoggedLives(b, u));
    DrawnLater(n, chosen, chosen');
  }

  lemma MessagesLater<S>(m: Machine<S>, s: System<S>, chosen: seq<Entry>, chosen': seq<Entry>, b: Book, b': Book)
    requires DataRel(m, s, chosen, b) && forall x :: x in b.lives ==> x in b'.lives
    ensures GoodMessages(Past(chosen', b'.lives), s.cluster.messages)
  {
    hide GoodAt, AllGood;
  }

  // ------------------------------------------------------------------ events

  /** The event that a move is for the cluster. */
  function EventOf<S>(a: Move<S>): Event
    requires a.Core? || a.Reopen?
  {
    if a.Core? then a.event else Restart(a.node)
  }

  /** What an event leaves at its node is good, unless it leaves a snapshot to
      restore that lies below what was applied. */
  ghost predicate GoodOutcome<S>(m: Machine<S>, p: Past, reached: seq<nat>, out: Outcome, app: S, log: seq<S>,
                                 lives: seq<seq<nat>>) {
    && ValidNode(out.node)
    && GoodNode(p, out.node, out.disk)
    && (Forward(out.node) ==> GoodState(m, p, reached, out.node, app))
    && GoodLog(m, p, out.disk, log, lives)
  }

  lemma PlainGood<S>(m: Machine<S>, config: Config, c: Cluster, e: Event, p: Past, reached: seq<nat>, app: S,
                     log: seq<S>, lives: seq<seq<nat>>)
    requires Enabled(c, e) && Plain(e) && GoodNode(p, c.nodes[Place(e)], c.disks[Place(e)])
    requires GoodState(m, p, reached, c.nodes[Place(e)], app) && GoodLog(m, p, c.disks[Place(e)], log, lives)
    ensures GoodOutcome(m, p, reached, Act(c, config, e), app, log, lives)
  {
    hide GoodNode, GoodState, Act, Leaves;
    PlainSameData(c, config, e);
    var out := Act(c, config, e);
    SameDataGood(m, p, reached, c.nodes[Place(e)], c.disks[Place(e)], out.node, out.disk, app);
  }

  lemma InstallsGood<S>(m: Machine<S>, config: Config, c: Cluster, e: Event, p: Past, reached: seq<nat>, app: S,
                        log: seq<S>, lives: seq<seq<nat>>)
    requires Enabled(c, e) && e.DeliverSnapshot? && GoodNode(p, c.nodes[Place(e)], c.disks[Place(e)])
    requires GoodState(m, p, reached, c.nodes[Place(e)], app) && GoodLog(m, p, c.disks[Place(e)], log, lives)
    requires GoodMessages(p, c.messages) && Streams(c)
    ensures GoodOutcome(m, p, reached, Act(c, config, e), app, log, lives)
  {
    hide GoodNode, GoodState, GoodChunk, OneStream, HandleInstallSnapshot, Leaves, Receiving, FromLeader;
    var message, n := e.message, c.nodes[Place(e)];
    assert StreamOf(c, message);
    if n.currentTerm <= message.install.term && Boundary(n.log) < message.snapshot.index {
      ChunkOf(message.install, message.snapshot);
      DeliveryIsOneStream(c, message);
    }
    HandleInstallGood(m, p, reached, n, c.disks[Place(e)], config, message.install, message.snapshot, app,
                      e.saveTerm, e.saveSnapshot, e.saveState);
  }

  lemma ReopensGood<S>(m: Machine<S>, config: Config, c: Cluster, v: NodeId, p: Past, reached: seq<nat>, log: seq<S>,
                       lives: seq<seq<nat>>, kept: nat)
    requires Enabled(c, Restart(v)) && GoodNode(p, c.nodes[v], c.disks[v]) && 0 < kept <= |log|
    requires GoodLog(m, p, c.disks[v], log, lives) && (c.disks[v].snapshot.None? ==> reached == lives[kept - 1])
    ensures GoodOutcome(m, p, reached, Act(c, config, Restart(v)), m.restart(log[kept - 1]), log[..kept], lives[..kept])
  {
    hide Above, Leaves, GoodState, GoodNode;
    RestartGood(m, p, reached, c.nodes[v], c.disks[v], log[kept - 1], v);
  }

  /** Every snapshot that an event sends was saved before. */
  lemma SendsGood(config: Config, c: Cluster, e: Event, c': Cluster, h': C.State, p: Past)
    requires Next(c, config, e, c') && Streams(c) && c.nodes[Place(e)].id == Place(e)
    requires GoodMessages(p, c.messages) && ValidNode(Act(c, config, e).node)
    requires GoodNode(p, Act(c, config, e).node, Act(c, config, e).disk)
    requires R.Rel(c', h')
    ensures GoodMessages(p, c'.messages - c.messages)
  {
    hide R.Rel, Next, Streams, Act, GoodChunk, Receiving, C.Inv, C.Witnessed;
    PlaceOf(c, config, e, c');
    EventSends(c, config, e);
    var out := Act(c, config, e);
    forall message | message in c'.messages - c.messages && IsSnap(message)
      ensures message.snapshot in p.lives
    {
      assert SentBy(c, Place(e), out.node, message);
      if FirstChunk(out.node, message) {
        RelatedMessage(c', h', message);
      }
    }
  }

  /** An event, as a step of the cluster and at its node. */
  lemma EventShape<S>(m: Machine<S>, config: Config, s: System<S>, a: Move<S>, s': System<S>)
    requires SystemNext(m, config, s, a, s') && (a.Core? || a.Reopen?)
    ensures var e := EventOf(a);
            && Next(s.cluster, config, e, s'.cluster)
            && Place(e) in s.apps && Place(e) in s.logs
            && !AppliersOwn(e)
            && OnlyAt(s, s', Place(e))
            && (a.Reopen? ==> 0 < a.kept <= |s.logs[Place(e)]|)
            && var v, out := Place(e), Act(s.cluster, config, e);
               && s'.cluster.nodes[v] == out.node && s'.cluster.disks[v] == out.disk
               && s'.apps[v] == (if a.Core? then s.apps[v] else m.restart(s.logs[v][a.kept - 1]))
               && s'.logs[v] == (if a.Core? then s.logs[v] else s.logs[v][..a.kept])
               && Forward(out.node)
  {
    hide Act, Step, Enabled, After, NeverBelowApplied, Forward, OnlyAt;
    EnabledPlace(s.cluster, EventOf(a));
    StepMaps(s.cluster, config, EventOf(a));
    if a.Reopen? {
      AfterReopen(m, config, s, a.node, a.kept);
    } else {
      AfterCore(m, config, s, a.event);
    }
    OnlyPlace(s, s', Place(EventOf(a)));
    NeverBelow(s'.cluster, Place(EventOf(a)));
  }

  lemma OnlyPlace<S>(s: System<S>, s': System<S>, v: NodeId)
    requires v in s.apps && v in s'.cluster.nodes && v in s'.cluster.disks && v in s'.apps && v in s'.logs
    requires s.apps.Keys == s.logs.Keys == s.cluster.nodes.Keys == s.cluster.disks.Keys
    requires s'.cluster.nodes == s.cluster.nodes[v := s'.cluster.nodes[v]]
    requires s'.cluster.disks == s.cluster.disks[v := s'.cluster.disks[v]]
    requires s'.apps == s.apps[v := s'.apps[v]] && s'.logs == s.logs[v := s'.logs[v]]
    ensures OnlyAt(s, s', v)
  {
  }

  lemma NeverBelow(c: Cluster, v: NodeId)
    requires NeverBelowApplied(c) && v in c.nodes
    ensures Forward(c.nodes[v])
  {
  }

  lemma AfterCore<S>(m: Machine<S>, config: Config, s: System<S>, e: Event)
    requires MayMove(s, Core(e))
    ensures After(m, config, s, Core(e)) == s.(cluster := Step(s.cluster, config, e))
  {
    hide Step, Enabled;
  }

  lemma StepMaps(c: Cluster, config: Config, e: Event)
    requires Enabled(c, e)
    ensures var c', out := Step(c, config, e), Act(c, config, e);
            c'.nodes == c.nodes[Place(e) := out.node] && c'.disks == c.disks[Place(e) := out.disk]
  {
    hide Act, ReadsAfter;
  }

  lemma EnabledPlace(c: Cluster, e: Event)
    requires Enabled(c, e)
    ensures Valid(c) && Place(e) in c.nodes
  {
  }

  lemma EnabledBy(config: Config, c: Cluster, e: Event, c': Cluster)
    requires Next(c, config, e, c')
    ensures Enabled(c, e)
  {
  }

  lemma EventGood<S>(m: Machine<S>, config: Config, s: System<S>, a: Move<S>, s': System<S>, chosen: seq<Entry>,
                     chosen': seq<Entry>, b: Book)
    requires SystemNext(m, config, s, a, s') && (a.Core? || a.Reopen?) && chosen <= chosen'
    requires Streams(s.cluster) && DataRel(m, s, chosen, b)
    ensures var v, b' := Place(EventOf(a)), BookAfter(s, a, s', b);
            && v in s'.apps && v in s'.logs
            && GoodOutcome(m, Past(chosen', b'.lives), Reached(b', v), Act(s.cluster, config, EventOf(a)), s'.apps[v],
                           s'.logs[v], LoggedLives(b', v))
  {
    hide Act, GoodNode, GoodState, GoodLog, SystemNext, DataRel, GoodOutcome, Next, Streams, Enabled;
    EventShape(m, config, s, a, s');
    var e, b' := EventOf(a), BookAfter(s, a, s', b);
    var v := Place(e);
    EnabledBy(config, s.cluster, e, s'.cluster);
    LaterAt(m, s, chosen, chosen', b, b', v);
    MessagesLater(m, s, chosen, chosen', b, b');
    var p := Past(chosen', b'.lives);
    if a.Reopen? {
      SameLength(m, p, s.cluster.disks[v], s.logs[v], LoggedLives(b, v));
      ReopensGood(m, config, s.cluster, v, p, Reached(b', v), s.logs[v], LoggedLives(b, v), a.kept);
    } else if Plain(e) {
      PlainGood(m, config, s.cluster, e, p, Reached(b, v), s.apps[v], s.logs[v], LoggedLives(b, v));
    } else {
      NotRestart(m, config, s, a, s');
      InstallsGood(m, config, s.cluster, e, p, Reached(b, v), s.apps[v], s.logs[v], LoggedLives(b, v));
    }
  }

  lemma SameLength<S>(m: Machine<S>, p: Past, d: Disk, log: seq<S>, lives: seq<seq<nat>>)
    requires GoodLog(m, p, d, log, lives)
    ensures |log| == |lives| > 0
  {
  }

  lemma NotRestart<S>(m: Machine<S>, config: Config, s: System<S>, a: Move<S>, s': System<S>)
    requires SystemNext(m, config, s, a, s') && a.Core?
    ensures !a.event.Restart?
  {
  }

  lemma RelatedId(c: Cluster, h: C.State, v: NodeId)
    requires v in c.nodes
    requires R.Rel(c, h)
    ensures c.nodes[v].id == v
  {
    hide R.Rel, C.Inv;
    RelatedNode(c, h, v);
  }

  lemma BookKeeps<S>(s: System<S>, a: Move<S>, s': System<S>, b: Book)
    requires a.Core? || a.Reopen?
    ensures BookMoves(b, BookAfter(s, a, s', b), Place(EventOf(a))) && BookAfter(s, a, s', b).lives == b.lives
  {
  }

  lemma CoreKeeps<S>(m: Machine<S>, config: Config, s: System<S>, a: Move<S>, s': System<S>, h: C.State, b: Book)
      returns (h': C.State)
    requires SystemNext(m, config, s, a, s') && (a.Core? || a.Reopen?)
    requires SystemRel(m, s, h, b)
    ensures SystemRel(m, s', h', BookAfter(s, a, s', b)) && P.Grows(h, h')
  {
    hide R.Rel, P.Grows, GoodNode, GoodState, GoodLog, DrawnFrom, Act, SystemNext, SystemRel, Next, DataRel, Streams,
         AllGood, BookAfter, BookMoves, Valid;
    var e := EventOf(a);
    EventShape(m, config, s, a, s');
    PartsOf(m, s, h, b);
    h' := StepKeeps(s.cluster, config, e, s'.cluster, h);
    ChosenGrows(h, h');
    RelatedValid(s'.cluster, h');
    StreamsKeep(s.cluster, config, e, s'.cluster, h, h');
    EventData(m, config, s, a, s', h, h', b);
    Together(m, s', h', BookAfter(s, a, s', b));
  }

  lemma Together<S>(m: Machine<S>, s: System<S>, h: C.State, b: Book)
    requires R.Rel(s.cluster, h) && Streams(s.cluster) && DataRel(m, s, h.chosen, b)
    ensures SystemRel(m, s, h, b)
  {
  }

  lemma EventData<S>(m: Machine<S>, config: Config, s: System<S>, a: Move<S>, s': System<S>, h: C.State, h': C.State,
                     b: Book)
    requires SystemNext(m, config, s, a, s') && (a.Core? || a.Reopen?) && h.chosen <= h'.chosen
    requires Streams(s.cluster) && DataRel(m, s, h.chosen, b)
    requires R.Rel(s.cluster, h) && R.Rel(s'.cluster, h')
    ensures DataRel(m, s', h'.chosen, BookAfter(s, a, s', b))
  {
    hide R.Rel, GoodNode, GoodState, GoodLog, DrawnFrom, Act, SystemNext, Next, DataRel, Streams, AllGood, BookAfter,
         BookMoves, OnlyAt, GoodMessages;
    var e, v, b' := EventOf(a), Place(EventOf(a)), BookAfter(s, a, s', b);
    EventShape(m, config, s, a, s');
    EventGood(m, config, s, a, s', h.chosen, h'.chosen, b);
    BookKeeps(s, a, s', b);
    AllLater(m, s, h.chosen, h'.chosen, b);
    MessagesMoved(m, s, h.chosen, h'.chosen, b, b', v);
    InNodes(s, s', v);
    RelatedId(s.cluster, h, v);
    SendsGood(config, s.cluster, e, s'.cluster, h', Past(h'.chosen, b'.lives));
    NodeDrawn(s'.cluster, h', v, h'.chosen);
    DataMoves(m, s, s', v, h.chosen, h'.chosen, b, b');
  }

  lemma InNodes<S>(s: System<S>, s': System<S>, v: NodeId)
    requires OnlyAt(s, s', v)
    ensures v in s.cluster.nodes && v in s.cluster.disks && v in s.apps && v in s.logs
    ensures v in s'.cluster.nodes && v in s'.cluster.disks && v in s'.apps && v in s'.logs
  {
  }

  lemma MessagesMoved<S>(m: Machine<S>, s: System<S>, chosen: seq<Entry>, chosen': seq<Entry>, b: Book, b': Book,
                         v: NodeId)
    requires DataRel(m, s, chosen, b) && BookMoves(b, b', v)
    ensures GoodMessages(Past(chosen', b'.lives), s.cluster.messages)
  {
    MessagesLater(m, s, chosen, chosen', b, b');
  }

  // ------------------------------------------------------------- the applier

  lemma ChosenNumbered(h: C.State)
    requires C.Inv(h)
    ensures Numbered(h.chosen)
  {
    hide C.Keeps, C.SettledValid, C.ServersGrounded, C.BallotsGrounded, C.BallotsValid, C.RolesValid, C.AcksValid,
         C.ReignsValid;
    if |h.chosen| > 0 {
      assert C.Grounded(h.reigns, h.reigns[h.chosenTerm].log);
      assert forall i :: 0 <= i < |h.chosen| ==> h.chosen[i] == h.reigns[h.chosenTerm].log[i];
    }
  }

  lemma AppliedFacts(c: Cluster, h: C.State, v: NodeId)
    requires v in c.nodes
    requires R.Rel(c, h)
    ensures DrawnFrom(c.nodes[v], h.chosen) && Numbered(h.chosen)
    ensures ValidNode(c.nodes[v]) && c.nodes[v].lastApplied <= c.nodes[v].commitIndex <= LastIndex(c.nodes[v].log)
  {
    hide R.Rel, C.Inv, DrawnFrom, R.DiskRel, R.SnapshotRel, R.LeaderRel, Represents;
    RelatedNode(c, h, v);
    NodeDrawn(c, h, v, h.chosen);
    ChosenNumbered(h);
    if R.NodeRel(c.nodes[v], c.disks[v], h, v) {
      Sim.CommitWithin(h, v);
      Shown(c.nodes[v].log, h.servers[v].log, 1);
    }
  }

  /** Progress of the state machine changes nothing at the Raft level. */
  lemma ProgressKeeps(c: Cluster, h: C.State, v: NodeId, n': Node)
    requires v in c.nodes && n'.lastApplied <= c.nodes[v].commitIndex
    requires n' == c.nodes[v].(lastApplied := n'.lastApplied, pendingSnapshot := n'.pendingSnapshot)
    requires R.Rel(c, h)
    ensures R.Rel(c.(nodes := c.nodes[v := n']), h)
  {
    hide C.Inv, P.Grows, R.Tied, R.MessageRel;
    RelatedNode(c, h, v);
    ProgressTrails(c.nodes[v], c.disks[v], h, v, n');
    R.NodesForward(c, c.(nodes := c.nodes[v := n']), h, h, v);
  }

  lemma ApplyShape<S>(m: Machine<S>, config: Config, s: System<S>, a: Move<S>, s': System<S>)
    requires SystemNext(m, config, s, a, s') && a.Apply?
    ensures a.node in s.apps && a.node in s.cluster.nodes && ValidNode(s.cluster.nodes[a.node])
    ensures a.node in s'.cluster.nodes
    ensures var v := a.node;
            && s'.cluster == s.cluster.(nodes := s.cluster.nodes[v := s'.cluster.nodes[v]])
            && OnlyAt(s, s', v)
            && (s'.cluster.nodes[v], s'.apps[v])
               == Applier(m, s.cluster.nodes[v], s.apps[v], a.restored, a.damaged, a.count)
            && ValidNode(s'.cluster.nodes[v])
            && s'.logs[v] == s.logs[v] + Recorded(m, s'.cluster.nodes[v], s'.apps[v], a.logged)
  {
    hide Applier, Recorded, NeverBelowApplied, After;
    AfterApply(m, config, s, a);
  }

  /** Progress of the state machine changes nothing about what is sent. */
  lemma ProgressStreams(c: Cluster, v: NodeId, n': Node)
    requires v in c.nodes && n' == c.nodes[v].(lastApplied := n'.lastApplied, pendingSnapshot := n'.pendingSnapshot)
    requires Streams(c)
    ensures Streams(c.(nodes := c.nodes[v := n']))
  {
    hide GoodChunk;
    var c' := c.(nodes := c.nodes[v := n']);
    forall m | m in c'.messages && IsSnap(m)
      ensures StreamOf(c', m)
    {
      assert StreamOf(c, m);
    }
  }

  lemma ApplyData<S>(m: Machine<S>, config: Config, s: System<S>, a: Move<S>, s': System<S>, h: C.State, b: Book)
    requires SystemNext(m, config, s, a, s') && a.Apply? && Faithful(m)
    requires DataRel(m, s, h.chosen, b)
    requires R.Rel(s.cluster, h)
    ensures DataRel(m, s', h.chosen, BookAfter(s, a, s', b))
    ensures var n' := s'.cluster.nodes[a.node];
            n'.lastApplied <= s.cluster.nodes[a.node].commitIndex
            && n' == s.cluster.nodes[a.node].(lastApplied := n'.lastApplied, pendingSnapshot := n'.pendingSnapshot)
  {
    hide R.Rel, GoodNode, GoodState, GoodLog, DrawnFrom, Applier, Faithful, SystemNext, Recorded, AllGood, DataRel,
         OnlyAt, BookAfter, BookMoves, Reached, LoggedLives, RecordedLives, GoodMessages, ReachedAfter;
    ApplyShape(m, config, s, a, s');
    var v, p, b' := a.node, Past(h.chosen, b.lives), BookAfter(s, a, s', b);
    InNodes(s, s', v);
    AppliedFacts(s.cluster, h, v);
    LaterAt(m, s, h.chosen, h.chosen, b, b, v);
    AllOf(m, s, h.chosen, b);
    ApplierGood(m, b, v, p, s.cluster.nodes[v], s.cluster.disks[v], s.apps[v], a.restored, a.damaged, a.count);
    var n, n' := s.cluster.nodes[v], s'.cluster.nodes[v];
    DrawnSame(n, n', h.chosen);
    RecordedGood(m, p, ReachedAfter(b, v, n, n'), n', s.cluster.disks[v], s'.apps[v], s.logs[v], LoggedLives(b, v),
                 a.logged);
    ApplyBook(s, a, s', b, Recorded(m, n', s'.apps[v], a.logged));
    NothingSent(p, s.cluster.messages, s'.cluster.messages);
    DataMoves(m, s, s', v, h.chosen, h.chosen, b, b');
  }

  lemma ApplyBook<S>(s: System<S>, a: Move<S>, s': System<S>, b: Book, more: seq<S>)
    requires a.Apply? && a.node in s.cluster.nodes && a.node in s'.cluster.nodes && a.node in s.logs
    requires a.node in s'.logs
    requires s'.logs[a.node] == s.logs[a.node] + more
    ensures var v, b' := a.node, BookAfter(s, a, s', b);
            var reached := ReachedAfter(b, v, s.cluster.nodes[v], s'.cluster.nodes[v]);
            && BookMoves(b, b', v) && b'.lives == b.lives && Reached(b', v) == reached
            && LoggedLives(b', v) == LoggedLives(b, v) + RecordedLives(reached, s'.cluster.nodes[v].lastApplied, |more|)
  {
  }

  lemma AllOf<S>(m: Machine<S>, s: System<S>, chosen: seq<Entry>, b: Book)
    requires DataRel(m, s, chosen, b)
    ensures AllGood(m, Past(chosen, b.lives))
  {
  }

  lemma ApplyKeeps<S>(m: Machine<S>, config: Config, s: System<S>, a: Move<S>, s': System<S>, h: C.State, b: Book)
    requires SystemNext(m, config, s, a, s') && a.Apply? && Faithful(m)
    requires SystemRel(m, s, h, b)
    ensures SystemRel(m, s', h, BookAfter(s, a, s', b))
  {
    hide R.Rel, Streams, DataRel, Applier, Faithful, SystemNext, BookAfter;
    ApplyShape(m, config, s, a, s');
    ApplyData(m, config, s, a, s', h, b);
    ProgressKeeps(s.cluster, h, a.node, s'.cluster.nodes[a.node]);
    ProgressStreams(s.cluster, a.node, s'.cluster.nodes[a.node]);
  }

  lemma SnapShape<S>(m: Machine<S>, config: Config, s: System<S>, a: Move<S>, s': System<S>)
    requires SystemNext(m, config, s, a, s') && a.Snap?
    ensures var v := a.node;
            && v in s.apps && v in s.cluster.nodes && m.savable(s.apps[v])
            && Next(s.cluster, config, SnapEvent(m, s, v, a.saveSnapshot, a.saveState), s'.cluster)
            && OnlyAt(s, s', v)
            && ValidNode(s.cluster.nodes[v])
            && s'.apps == s.apps && s'.logs == s.logs
            && s'.cluster.messages == s.cluster.messages
            && var n, data := s.cluster.nodes[v], m.encode(s.apps[v]);
               (s'.cluster.nodes[v], s'.cluster.disks[v])
               == CreateSnapshot(n, s.cluster.disks[v], n.lastApplied, data, a.saveSnapshot
                                 && |data| <= MAX_SNAPSHOT_DATA, a.saveState)
  {
    hide CreateSnapshot, NeverBelowApplied;
  }

  /** What is on the disk after a snapshot was taken. */
  lemma SavedPast<S>(m: Machine<S>, p: Past, p': Past, reached: seq<nat>, app: S, d: Disk, d': Disk)
    requires AllGood(m, p) && p.chosen == p'.chosen
    requires d'.snapshot == d.snapshot || (d'.snapshot.Some? && IsOf(m, p, reached, app, d'.snapshot.value))
    requires p'.lives
             == (if d'.snapshot.Some? && d'.snapshot.value !in p.lives then p.lives[d'.snapshot.value := reached]
                 else p.lives)
    requires d.snapshot.Some? ==> d.snapshot.value in p.lives
    ensures AllGood(m, p') && PastGrows(p, p') && (d'.snapshot.Some? ==> d'.snapshot.value in p'.lives)
  {
    hide FoldFrom, Left, Covers;
    AllForward(m, p, p');
  }

  /** The node after a snapshot was taken. */
  lemma SnappedNode<S>(m: Machine<S>, p: Past, p': Past, reached: seq<nat>, n: Node, d: Disk, n': Node, d': Disk,
                       app: S, log: seq<S>, lives: seq<seq<nat>>)
    requires ValidNode(n) && GoodNode(p, n, d) && GoodState(m, p, reached, n, app) && GoodLog(m, p, d, log, lives)
    requires PastGrows(p, p')
    requires ValidNode(n') && n'.pendingSnapshot == n.pendingSnapshot && n'.lastApplied == n.lastApplied
    requires p'.chosen == p.chosen
    requires d'.snapshot == d.snapshot || d'.snapshot.Some?
    requires d'.snapshot.Some? ==> d'.snapshot.value in p'.lives
    requires n' == n || (d'.snapshot == Some(Held(n')) && Boundary(n'.log) == n.lastApplied && n.pendingSnapshot.None?)
    ensures GoodNode(p', n', d') && GoodState(m, p', reached, n', app) && GoodLog(m, p', d', log, lives)
  {
    hide Carried, Leaves;
  }

  lemma SnapData<S>(m: Machine<S>, config: Config, s: System<S>, a: Move<S>, s': System<S>, h: C.State, h': C.State,
                    b: Book)
    requires SystemNext(m, config, s, a, s') && a.Snap? && h.chosen <= h'.chosen
    requires DataRel(m, s, h.chosen, b)
    requires R.Rel(s'.cluster, h')
    ensures DataRel(m, s', h'.chosen, BookAfter(s, a, s', b))
  {
    hide R.Rel, GoodNode, GoodState, GoodLog, DrawnFrom, CreateSnapshot, SystemNext, AllGood, PastGrows, DataRel,
         OnlyAt, BookAfter, BookMoves, Reached, LoggedLives, Next, GoodMessages, SnapEvent;
    SnapShape(m, config, s, a, s');
    var v, b' := a.node, BookAfter(s, a, s', b);
    var p, p' := Past(h'.chosen, b.lives), Past(h'.chosen, b'.lives);
    InNodes(s, s', v);
    SnapBook(s, a, s', b);
    LaterAt(m, s, h.chosen, h'.chosen, b, b, v);
    AllLater(m, s, h.chosen, h'.chosen, b);
    Snapped(m, p, p', Reached(b, v), s.cluster.nodes[v], s.cluster.disks[v], s.apps[v], s.logs[v], LoggedLives(b, v),
            a.saveSnapshot, a.saveState);
    NodeDrawn(s'.cluster, h', v, h'.chosen);
    NothingSent(p', s.cluster.messages, s'.cluster.messages);
    DataMoves(m, s, s', v, h.chosen, h'.chosen, b, b');
  }

  lemma SnapBook<S>(s: System<S>, a: Move<S>, s': System<S>, b: Book)
    requires a.Snap? && a.node in s'.cluster.disks
    ensures var v, b', saved := a.node, BookAfter(s, a, s', b), s'.cluster.disks[a.node].snapshot;
            && BookMoves(b, b', v) && Reached(b', v) == Reached(b, v) && LoggedLives(b', v) == LoggedLives(b, v)
            && b'.lives == if saved.Some? && saved.value !in b.lives then b.lives[saved.value := Reached(b, v)]
                           else b.lives
  {
  }

  lemma NothingSent(p: Past, sent: set<Message>, sent': set<Message>)
    requires sent' == sent
    ensures GoodMessages(p, sent' - sent)
  {
  }

  lemma Snapped<S>(m: Machine<S>, p: Past, p': Past, reached: seq<nat>, n: Node, d: Disk, app: S, log: seq<S>,
                   lives: seq<seq<nat>>, saveSnapshot: bool, saveState: bool)
    requires DrawnFrom(n, p.chosen) && GoodNode(p, n, d) && GoodState(m, p, reached, n, app)
    requires GoodLog(m, p, d, log, lives)
    requires m.savable(app) && AllGood(m, p) && p.chosen == p'.chosen
    requires var d' :=
        CreateSnapshot(n, d, n.lastApplied, m.encode(app), saveSnapshot
                       && |m.encode(app)| <= MAX_SNAPSHOT_DATA, saveState).1;
             p'.lives == if d'.snapshot.Some? && d'.snapshot.value !in p.lives
                         then p.lives[d'.snapshot.value := reached] else p.lives
    ensures AllGood(m, p') && PastGrows(p, p')
    ensures var (n', d') := CreateSnapshot(n, d, n.lastApplied, m.encode(app), saveSnapshot
                                           && |m.encode(app)| <= MAX_SNAPSHOT_DATA, saveState);
            ValidNode(n') && GoodNode(p', n', d') && GoodState(m, p', reached, n', app)
            && GoodLog(m, p', d', log, lives)
  {
    hide GoodNode, GoodState, GoodLog, DrawnFrom, CreateSnapshot, AllGood, PastGrows, IsOf;
    DrawnWithin(n, p.chosen);
    SnapGood(m, p, reached, n, d, app, saveSnapshot, saveState);
    var (n', d') := CreateSnapshot(n, d, n.lastApplied, m.encode(app), saveSnapshot
                                   && |m.encode(app)| <= MAX_SNAPSHOT_DATA, saveState);
    DiskSaved(p, n, d);
    SavedPast(m, p, p', reached, app, d, d');
    SnappedNode(m, p, p', reached, n, d, n', d', app, log, lives);
  }

  lemma DiskSaved(p: Past, n: Node, d: Disk)
    requires ValidNode(n) && GoodNode(p, n, d)
    ensures d.snapshot.Some? ==> d.snapshot.value in p.lives
  {
  }

  lemma AllLater<S>(m: Machine<S>, s: System<S>, chosen: seq<Entry>, chosen': seq<Entry>, b: Book)
    requires DataRel(m, s, chosen, b) && chosen <= chosen'
    ensures AllGood(m, Past(chosen', b.lives))
  {
    hide AllGood;
    AllForward(m, Past(chosen, b.lives), Past(chosen', b.lives));
  }

  lemma SnapKeeps<S>(m: Machine<S>, config: Config, s: System<S>, a: Move<S>, s': System<S>, h: C.State, b: Book)
      returns (h': C.State)
    requires SystemNext(m, config, s, a, s') && a.Snap?
    requires SystemRel(m, s, h, b)
    ensures SystemRel(m, s', h', BookAfter(s, a, s', b)) && P.Grows(h, h')
  {
    hide R.Rel, P.Grows, Streams, DataRel, CreateSnapshot, SystemNext, Next, BookAfter, Valid;
    SnapShape(m, config, s, a, s');
    var e := SnapEvent(m, s, a.node, a.saveSnapshot, a.saveState);
    h' := StepKeeps(s.cluster, config, e, s'.cluster, h);
    ChosenGrows(h, h');
    RelatedValid(s'.cluster, h');
    StreamsKeep(s.cluster, config, e, s'.cluster, h, h');
    SnapData(m, config, s, a, s', h, h', b);
  }

  lemma SystemStepKeeps<S>(m: Machine<S>, config: Config, s: System<S>, a: Move<S>, s': System<S>, h: C.State, b: Book)
      returns (h': C.State)
    requires SystemNext(m, config, s, a, s') && SystemRel(m, s, h, b) && Faithful(m)
    ensures SystemRel(m, s', h', BookAfter(s, a, s', b)) && P.Grows(h, h')
  {
    hide SystemNext, P.Grows, Faithful, SystemRel, BookAfter;
    match a
    case Core(_) => h' := CoreKeeps(m, config, s, a, s', h, b);
    case Reopen(_, _) => h' := CoreKeeps(m, config, s, a, s', h, b);
    case Apply(_, _, _, _, _) =>
      h' := h;
      ApplyKeeps(m, config, s, a, s', h, b);
      GrowsItself(h);
    case Snap(_, _, _) => h' := SnapKeeps(m, config, s, a, s', h, b);
  }

  lemma InitAt<S>(m: Machine<S>, s: System<S>, chosen: seq<Entry>, v: NodeId)
    requires SystemInit(m, s) && v in s.apps && v in s.cluster.disks && DrawnFrom(s.cluster.nodes[v], chosen)
    ensures GoodAt(m, s, chosen, NO_LEFTOVERS, v)
  {
    hide Carried, DrawnFrom, Leaves;
    assert chosen[..0] == [] && [] + [0] == [0];
    CarriedPlain(m, chosen, 0);
    CarriedLeaves(m, chosen, [], m.init, 0);
  }

  lemma InitKeys<S>(m: Machine<S>, s: System<S>)
    requires SystemInit(m, s) && Valid(s.cluster)
    ensures s.apps.Keys == s.logs.Keys == s.cluster.nodes.Keys == s.cluster.disks.Keys && s.cluster.messages == {}
  {
  }

  lemma SystemInitRelated<S>(m: Machine<S>, s: System<S>) returns (h: C.State)
    requires SystemInit(m, s)
    ensures SystemRel(m, s, h, NO_LEFTOVERS)
  {
    hide R.Rel, Init, DrawnFrom, GoodAt, Streams;
    h := InitRelated(s.cluster);
    RelatedValid(s.cluster, h);
    InitStreams(s.cluster);
    InitKeys(m, s);
    forall v | v in s.apps
      ensures GoodAt(m, s, h.chosen, NO_LEFTOVERS, v)
    {
      NodeDrawn(s.cluster, h, v, h.chosen);
      InitAt(m, s, h.chosen, v);
    }
  }

  lemma {:induction false} BookLocal<S>(run: seq<System<S>>, moves: seq<Move<S>>, k: nat, i: nat)
    requires i <= k <= |moves| && k < |run|
    ensures BookAt(run[..k + 1], moves[..k], i) == BookAt(run, moves, i)
  {
    if i > 0 {
      BookLocal(run, moves, k, i - 1);
    }
  }

  ghost predicate SystemTraced<S>(m: Machine<S>, run: seq<System<S>>, moves: seq<Move<S>>, hs: seq<C.State>) {
    && |hs| == |run| == |moves| + 1
    && (forall i :: 0 <= i < |run| ==> SystemRel(m, run[i], hs[i], BookAt(run, moves, i)))
    && (forall i, j :: 0 <= i <= j < |run| ==> P.Grows(hs[i], hs[j]))
  }

  lemma RunPrefix<S>(m: Machine<S>, config: Config, run: seq<System<S>>, moves: seq<Move<S>>, k: nat)
    requires IsSystemRun(m, config, run, moves) && k <= |moves|
    ensures IsSystemRun(m, config, run[..k + 1], moves[..k])
  {
    hide SystemNext, SystemInit;
    forall i | 0 <= i < k
      ensures SystemNext(m, config, run[..k + 1][i], moves[..k][i], run[..k + 1][i + 1])
    {
      assert SystemNext(m, config, run[i], moves[i], run[i + 1]);
    }
  }

  lemma {:induction false} SystemRunTraced<S>(m: Machine<S>, config: Config, run: seq<System<S>>, moves: seq<Move<S>>)
      returns (hs: seq<C.State>)
    requires IsSystemRun(m, config, run, moves) && Faithful(m)
    ensures SystemTraced(m, run, moves, hs)
    decreases |moves|
  {
    hide SystemRel, P.Grows, SystemInit, SystemNext, Faithful, BookAfter;
    if moves == [] {
      var h := SystemInitRelated(m, run[0]);
      hs := [h];
      GrowsItself(h);
    } else {
      var k := |moves| - 1;
      RunPrefix(m, config, run, moves, k);
      var before := SystemRunTraced(m, config, run[..k + 1], moves[..k]);
      BookLocal(run, moves, k, k);
      var h := SystemStepKeeps(m, config, run[k], moves[k], run[k + 1], before[k], BookAt(run, moves, k));
      hs := before + [h];
      GrowsItself(h);
      TraceGrows(before, h);
      RelatedAll(m, run, moves, before, h);
    }
  }

  lemma RelatedAll<S>(m: Machine<S>, run: seq<System<S>>, moves: seq<Move<S>>, before: seq<C.State>, h: C.State)
    requires |run| == |moves| + 1 && |moves| > 0 && SystemTraced(m, run[..|moves|], moves[..|moves| - 1], before)
    requires SystemRel(m, run[|moves|], h, BookAt(run, moves, |moves|))
    ensures forall i :: 0 <= i < |run| ==> SystemRel(m, run[i], (before + [h])[i], BookAt(run, moves, i))
  {
    hide SystemRel, P.Grows, BookAt;
    var k := |moves| - 1;
    forall i | 0 <= i < |run|
      ensures SystemRel(m, run[i], (before + [h])[i], BookAt(run, moves, i))
    {
      if i <= k {
        BookLocal(run, moves, k, i);
        assert SystemRel(m, run[..k + 1][i], before[i], BookAt(run[..k + 1], moves[..k], i));
      }
    }
  }

  // ---------------------------------------------------------------- theorems

  /** Apply refinement: there is one sequence of committed entries such that,
      in every state of the run and at every node, the state machine with no
      snapshot pending is what the first `lastApplied` of them lead to from
      what earlier lifetimes left, every snapshot is the encoding of such a
      state after the prefix it names, and what is left of a store's log is
      such a state as well. */
  lemma ApplyRefinement<S>(m: Machine<S>, config: Config, run: seq<System<S>>, moves: seq<Move<S>>)
      returns (chosen: seq<Entry>)
    requires IsSystemRun(m, config, run, moves) && Faithful(m)
    ensures forall i :: 0 <= i < |run| ==> DataRel(m, run[i], chosen, BookAt(run, moves, i))
  {
    hide SystemRel, IsSystemRun, P.Grows, DataRel, Faithful, BookAt;
    RunLength(m, config, run, moves);
    var hs := SystemRunTraced(m, config, run, moves);
    chosen := hs[|run| - 1].chosen;
    forall i | 0 <= i < |run|
      ensures DataRel(m, run[i], chosen, BookAt(run, moves, i))
    {
      ChosenGrows(hs[i], hs[|run| - 1]);
      DataLater(m, run[i], hs[i], chosen, BookAt(run, moves, i));
    }
  }

  lemma RunLength<S>(m: Machine<S>, config: Config, run: seq<System<S>>, moves: seq<Move<S>>)
    requires IsSystemRun(m, config, run, moves)
    ensures |run| == |moves| + 1
  {
  }

  lemma DataLater<S>(m: Machine<S>, s: System<S>, h: C.State, chosen: seq<Entry>, b: Book)
    requires SystemRel(m, s, h, b) && h.chosen <= chosen
    ensures DataRel(m, s, chosen, b)
  {
    hide R.Rel, Streams, GoodNode, GoodState, GoodLog, DrawnFrom, AllGood;
    forall v | v in s.apps
      ensures ValidNode(s.cluster.nodes[v]) && GoodAt(m, s, chosen, b, v)
    {
      LaterAt(m, s, h.chosen, chosen, b, b, v);
    }
    AllLater(m, s, h.chosen, chosen, b);
  }

  /** In every state of the run the state machine of a node without a pending
      snapshot is what the first `lastApplied` committed entries lead to from
      what the lifetimes left that the book has for it. Once the node has come
      as far as they had, it is the fold of those entries. */
  lemma AppliedExactly<S>(m: Machine<S>, config: Config, run: seq<System<S>>, moves: seq<Move<S>>)
      returns (chosen: seq<Entry>)
    requires IsSystemRun(m, config, run, moves) && Faithful(m)
    ensures forall i, v :: 0 <= i < |run| && v in run[i].apps && v in run[i].cluster.nodes ==>
              AppliedAt(m, run[i], v, Reached(BookAt(run, moves, i), v), chosen)
  {
    hide IsSystemRun, DataRel, Faithful, BookAt, AppliedAt, Reached;
    RunLength(m, config, run, moves);
    chosen := ApplyRefinement(m, config, run, moves);
    forall i, v | 0 <= i < |run| && v in run[i].apps && v in run[i].cluster.nodes
      ensures AppliedAt(m, run[i], v, Reached(BookAt(run, moves, i), v), chosen)
    {
      DataExact(m, run[i], v, chosen, BookAt(run, moves, i));
    }
  }

  ghost predicate AppliedAt<S>(m: Machine<S>, s: System<S>, v: NodeId, reached: seq<nat>, chosen: seq<Entry>)
    requires v in s.apps && v in s.cluster.nodes
  {
    var n := s.cluster.nodes[v];
    n.pendingSnapshot.None? ==>
      && Carried(m, chosen, reached, s.apps[v], n.lastApplied)
      && (Within(reached, n.lastApplied) ==> s.apps[v] == Fold(m, chosen[..n.lastApplied]))
  }

  lemma DataExact<S>(m: Machine<S>, s: System<S>, v: NodeId, chosen: seq<Entry>, b: Book)
    requires DataRel(m, s, chosen, b) && Faithful(m) && v in s.apps && v in s.cluster.nodes
    ensures AppliedAt(m, s, v, Reached(b, v), chosen)
  {
    hide GoodNode, GoodLog, DrawnFrom, GoodMessages, Faithful, AllGood, FoldFrom, Left;
    assert GoodAt(m, s, chosen, b, v);
    if s.cluster.nodes[v].pendingSnapshot.None? && Within(Reached(b, v), s.cluster.nodes[v].lastApplied) {
      CarriedExact(m, chosen, Reached(b, v), s.apps[v], s.cluster.nodes[v].lastApplied);
    }
  }

  /** Every snapshot on a disk is the encoding of what the prefix that it names
      leads to from what the lifetimes left that the book has for it. If it
      was taken as far on as they had come, it is the encoding of exactly the
      prefix. */
  lemma SavedExactly<S>(m: Machine<S>, config: Config, run: seq<System<S>>, moves: seq<Move<S>>)
      returns (chosen: seq<Entry>)
    requires IsSystemRun(m, config, run, moves) && Faithful(m)
    ensures forall i, v :: 0 <= i < |run| && v in run[i].cluster.disks ==>
              SavedAt(m, run[i].cluster.disks[v].snapshot, BookAt(run, moves, i), chosen)
  {
    hide IsSystemRun, DataRel, Faithful, BookAt, SavedAt;
    RunLength(m, config, run, moves);
    chosen := ApplyRefinement(m, config, run, moves);
    forall i, v | 0 <= i < |run| && v in run[i].cluster.disks
      ensures SavedAt(m, run[i].cluster.disks[v].snapshot, BookAt(run, moves, i), chosen)
    {
      DataSaved(m, run[i], v, chosen, BookAt(run, moves, i));
    }
  }

  ghost predicate SavedAt<S>(m: Machine<S>, s: Option<Snapshot>, b: Book, chosen: seq<Entry>) {
    s.Some? ==>
      && s.value in b.lives
      && s.value.index <= |chosen|
      && Within(b.lives[s.value], |chosen|)
      && s.value.data == m.encode(Resumed(m, chosen, b.lives[s.value], s.value.index))
      && (Within(b.lives[s.value], s.value.index) ==> s.value.data == m.encode(Fold(m, chosen[..s.value.index])))
  }

  lemma DataSaved<S>(m: Machine<S>, s: System<S>, v: NodeId, chosen: seq<Entry>, b: Book)
    requires DataRel(m, s, chosen, b) && v in s.cluster.disks && Faithful(m)
    ensures SavedAt(m, s.cluster.disks[v].snapshot, b, chosen)
  {
    hide GoodState, GoodLog, DrawnFrom, GoodMessages, FoldFrom, Left, Faithful;
    assert v in s.apps && GoodAt(m, s, chosen, b, v);
    var d := s.cluster.disks[v];
    if d.snapshot.Some? {
      assert GoodSnapshot(m, Past(chosen, b.lives), d.snapshot.value);
      if Within(b.lives[d.snapshot.value], d.snapshot.value.index) {
        PayloadExact(m, Past(chosen, b.lives), d.snapshot.value);
      }
    }
  }

  /** Replicas that have applied equally far, and as far as the lifetimes had
      come whose leftovers they hold, are equal, whenever and wherever they got
      there: by applying entries or by restoring snapshots. */
  lemma ReplicasAgree<S>(m: Machine<S>, config: Config, run: seq<System<S>>, moves: seq<Move<S>>, i: nat, j: nat,
                         u: NodeId, v: NodeId)
    requires IsSystemRun(m, config, run, moves) && Faithful(m) && i < |run| && j < |run|
    requires u in run[i].apps && u in run[i].cluster.nodes && v in run[j].apps && v in run[j].cluster.nodes
    requires run[i].cluster.nodes[u].pendingSnapshot.None? && run[j].cluster.nodes[v].pendingSnapshot.None?
    requires run[i].cluster.nodes[u].lastApplied == run[j].cluster.nodes[v].lastApplied
    requires Within(Reached(BookAt(run, moves, i), u), run[i].cluster.nodes[u].lastApplied)
    requires Within(Reached(BookAt(run, moves, j), v), run[j].cluster.nodes[v].lastApplied)
    ensures run[i].apps[u] == run[j].apps[v]
  {
    hide IsSystemRun, Faithful, BookAt, Reached, Within, Carried;
    RunLength(m, config, run, moves);
    var chosen := AppliedExactly(m, config, run, moves);
    assert AppliedAt(m, run[i], u, Reached(BookAt(run, moves, i), u), chosen);
    assert AppliedAt(m, run[j], v, Reached(BookAt(run, moves, j), v), chosen);
  }

  /** The move is neither a restart of `v` without a snapshot nor a restore. */
  ghost predicate KeepsReached<S>(s: System<S>, a: Move<S>, s': System<S>, v: NodeId) {
    && (a.Reopen? && a.node == v ==> v in s.cluster.disks && s.cluster.disks[v].snapshot.Some?)
    && (a.Apply? && a.node == v && v in s.cluster.nodes && v in s'.cluster.nodes ==>
        !RestoredNow(s.cluster.nodes[v], s'.cluster.nodes[v]))
  }

  /** A node that never restarted without a snapshot and never restored one has
      no leftovers, whatever other nodes do. */
  lemma {:induction false} NoLeftovers<S>(run: seq<System<S>>, moves: seq<Move<S>>, i: nat, v: NodeId)
    requires i <= |moves| && i < |run|
    requires forall k :: 0 <= k < i ==> KeepsReached(run[k], moves[k], run[k + 1], v)
    ensures Reached(BookAt(run, moves, i), v) == []
  {
    if i > 0 {
      NoLeftovers(run, moves, i - 1, v);
      assert KeepsReached(run[i - 1], moves[i - 1], run[i - 1 + 1], v);
    }
  }

  lemma NoneAfter<S>(s: System<S>, a: Move<S>, s': System<S>, b: Book)
    requires (forall v :: Reached(b, v) == []) && forall x :: x in b.lives ==> b.lives[x] == []
    requires !(a.Reopen? && a.node in s.cluster.disks && s.cluster.disks[a.node].snapshot.None?)
    ensures forall v :: Reached(BookAfter(s, a, s', b), v) == []
    ensures forall x :: x in BookAfter(s, a, s', b).lives ==> BookAfter(s, a, s', b).lives[x] == []
  {
    if a.Apply? && a.node in s.cluster.nodes && s.cluster.nodes[a.node].pendingSnapshot.Some? {
      assert LivesOf(b, s.cluster.nodes[a.node].pendingSnapshot.value) == [];
    }
    assert !a.Core? ==> Reached(b, a.node) == [];
    forall v
      ensures Reached(BookAfter(s, a, s', b), v) == []
    {
      assert Reached(b, v) == [];
    }
  }

  /** If no node ever restarts without a snapshot there are no leftovers. */
  lemma {:induction false} NoneAnywhere<S>(run: seq<System<S>>, moves: seq<Move<S>>, i: nat)
    requires i <= |moves| && i < |run|
    requires forall k :: 0 <= k < i ==>
               !(moves[k].Reopen? && moves[k].node in run[k].cluster.disks
                 && run[k].cluster.disks[moves[k].node].snapshot.None?)
    ensures forall v :: Reached(BookAt(run, moves, i), v) == []
    ensures forall s :: s in BookAt(run, moves, i).lives ==> BookAt(run, moves, i).lives[s] == []
  {
    if i > 0 {
      NoneAnywhere(run, moves, i - 1);
      NoneAfter(run[i - 1], moves[i - 1], run[i], BookAt(run, moves, i - 1));
    }
  }
}
