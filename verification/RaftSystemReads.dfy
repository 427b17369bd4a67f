/** Linearizable reads of the whole system: a node that has applied as far as a
    read barrier says serves everything that was committed before the read. */
module RaftSystemReads {
  import opened RaftTypes
  import opened RaftHandlers
  import opened RaftCluster
  import opened RaftStreams
  import opened RaftData
  import opened RaftSystem
  import opened RaftSystemRuns
  import opened RaftRuns
  import opened RaftReads
  import R = RaftRefinement
  import P = ConsensusProofs

  // --------------------------------------- a move as events of the cluster

  ghost predicate Steps(config: Config, cs: seq<Cluster>, es: seq<Event>) {
    |cs| == |es| + 1 && forall i :: 0 <= i < |es| ==> Next(cs[i], config, es[i], cs[i + 1])
  }

  function WithNode(c: Cluster, v: NodeId, n: Node): Cluster {
    c.(nodes := c.nodes[v := n])
  }

  lemma AppliedStep(config: Config, c: Cluster, v: NodeId, index: nat)
    requires Valid(c) && v in c.nodes
    ensures Next(c, config, Applied(v, index), WithNode(c, v, MarkApplied(c.nodes[v], index)))
  {
    assert c.disks[v := c.disks[v]] == c.disks;
  }

  lemma RestoredStep(config: Config, c: Cluster, v: NodeId, index: nat)
    requires Valid(c) && v in c.nodes
    ensures Next(c, config, Event.Restored(v, index), WithNode(c, v, ConfirmSnapshotRestored(c.nodes[v], index)))
  {
    assert c.disks[v := c.disks[v]] == c.disks;
  }

  lemma SameNode(c: Cluster, v: NodeId)
    requires v in c.nodes
    ensures WithNode(c, v, c.nodes[v]) == c
  {
    assert c.nodes[v := c.nodes[v]] == c.nodes;
  }

  lemma NodeTwice(c: Cluster, v: NodeId, n: Node, n': Node)
    ensures WithNode(WithNode(c, v, n), v, n') == WithNode(c, v, n')
  {
    assert c.nodes[v := n][v := n'] == c.nodes[v := n'];
  }

  /** Applying entries is at most one event. */
  lemma EntriesAsEvents<S>(m: Machine<S>, config: Config, c: Cluster, v: NodeId, app: S, count: nat)
      returns (cs: seq<Cluster>, es: seq<Event>)
    requires Valid(c) && v in c.nodes
    ensures Steps(config, cs, es) && cs[0] == c && cs[|es|] == WithNode(c, v, ApplyEntries(m, c.nodes[v], app, count).0)
  {
    hide CommittedEntries, FoldFrom, Next, MarkApplied;
    var entries := CommittedEntries(c.nodes[v], c.nodes[v].lastApplied + 1);
    var batch := if count < |entries| then entries[..count] else entries;
    if batch == [] {
      SameNode(c, v);
      cs, es := [c], [];
    } else {
      var index := batch[|batch| - 1].index;
      AppliedStep(config, c, v, index);
      cs, es := [c, WithNode(c, v, MarkApplied(c.nodes[v], index))], [Applied(v, index)];
    }
  }

  /** A run of the applier is at most two events. */
  lemma ApplierAsEvents<S>(m: Machine<S>, config: Config, c: Cluster, v: NodeId, app: S, restored: bool, damaged: S,
                           count: nat)
      returns (cs: seq<Cluster>, es: seq<Event>)
    requires Valid(c) && v in c.nodes
    ensures Steps(config, cs, es) && cs[0] == c
    ensures cs[|es|] == WithNode(c, v, Applier(m, c.nodes[v], app, restored, damaged, count).0)
  {
    hide ApplyEntries, Next;
    var n := c.nodes[v];
    if n.pendingSnapshot.None? {
      cs, es := EntriesAsEvents(m, config, c, v, app, count);
    } else {
      var index, state := n.pendingSnapshot.value.index, m.decode(n.pendingSnapshot.value.data);
      var n' := ConfirmSnapshotRestored(n, index);
      if !restored || state.None? || n'.pendingSnapshot.Some? {
        SameNode(c, v);
        cs, es := [c], [];
      } else {
        var c' := WithNode(c, v, n');
        RestoredStep(config, c, v, index);
        var cs', es' := EntriesAsEvents(m, config, c', v, state.value, count);
        NodeTwice(c, v, n', ApplyEntries(m, n', state.value, count).0);
        cs, es := [c] + cs', [Event.Restored(v, index)] + es';
      }
    }
  }

  lemma MoveAsEvents<S>(m: Machine<S>, config: Config, s: System<S>, a: Move<S>, s': System<S>)
      returns (cs: seq<Cluster>, es: seq<Event>)
    requires SystemNext(m, config, s, a, s')
    ensures Steps(config, cs, es) && cs[0] == s.cluster && cs[|es|] == s'.cluster
    ensures a.Core? ==> es == [a.event]
  {
    hide Applier, Act, ReadsAfter, Recorded;
    match a
    case Core(e) => cs, es := [s.cluster, s'.cluster], [e];
    case Reopen(v, _) => cs, es := [s.cluster, s'.cluster], [Restart(v)];
    case Apply(v, restored, damaged, count, _) =>
      cs, es := ApplierAsEvents(m, config, s.cluster, v, s.apps[v], restored, damaged, count);
    case Snap(v, saveSnapshot, saveState) =>
      cs, es := [s.cluster, s'.cluster], [SnapEvent(m, s, v, saveSnapshot, saveState)];
  }

  // -------------------------------------------- a run as a run of the cluster

  /** State `i` of the system run is state `at[i]` of the cluster run, and an
      event of the system run is an event of the cluster run there. */
  ghost predicate Unfolds<S>(run: seq<System<S>>, moves: seq<Move<S>>, cs: seq<Cluster>, es: seq<Event>, at: seq<nat>) {
    && |at| == |run| == |moves| + 1
    && |cs| == |es| + 1
    && (forall i :: 0 <= i < |at| ==> at[i] < |cs| && cs[at[i]] == run[i].cluster)
    && (forall i, j :: 0 <= i < j < |at| ==> at[i] <= at[j])
    && (forall i :: 0 <= i < |moves| && moves[i].Core? ==> at[i] < at[i + 1] && es[at[i]] == moves[i].event)
  }

  lemma StepsJoin(config: Config, cs: seq<Cluster>, es: seq<Event>, cs': seq<Cluster>, es': seq<Event>)
    requires Steps(config, cs, es) && Steps(config, cs', es') && cs[|es|] == cs'[0]
    ensures Steps(config, cs + cs'[1..], es + es')
  {
    hide Next;
    var all, k := cs + cs'[1..], |es|;
    forall i | 0 <= i < |es + es'|
      ensures Next(all[i], config, (es + es')[i], all[i + 1])
    {
      if i >= k {
        assert all[i] == cs'[i - k] && all[i + 1] == cs'[i - k + 1] && (es + es')[i] == es'[i - k];
      }
    }
  }

  lemma UnfoldsMore<S>(run: seq<System<S>>, moves: seq<Move<S>>, cs: seq<Cluster>, es: seq<Event>, at: seq<nat>,
                       cs': seq<Cluster>, es': seq<Event>)
    requires |moves| > 0 && |run| == |moves| + 1 && Unfolds(run[..|moves|], moves[..|moves| - 1], cs, es, at)
    requires at[|moves| - 1] == |es|
    requires |cs'| == |es'| + 1 && cs'[0] == run[|moves| - 1].cluster && cs'[|es'|] == run[|moves|].cluster
    requires moves[|moves| - 1].Core? ==> es' == [moves[|moves| - 1].event]
    ensures Unfolds(run, moves, cs + cs'[1..], es + es', at + [|es| + |es'|])
  {
    var k := |moves| - 1;
    var all, events, ats := cs + cs'[1..], es + es', at + [|es| + |es'|];
    forall i | 0 <= i < |ats|
      ensures ats[i] < |all| && all[ats[i]] == run[i].cluster
    {
      if i <= k {
        assert run[..k + 1][i] == run[i];
      } else if |es'| > 0 {
        assert all[|es| + |es'|] == cs'[|es'|];
      }
    }
    forall i | 0 <= i < |moves| && moves[i].Core?
      ensures ats[i] < ats[i + 1] && events[ats[i]] == moves[i].event
    {
      if i < k {
        assert moves[..k][i] == moves[i];
      }
    }
  }

  lemma {:induction false} AsClusterRun<S>(m: Machine<S>, config: Config, run: seq<System<S>>, moves: seq<Move<S>>)
      returns (cs: seq<Cluster>, es: seq<Event>, at: seq<nat>)
    requires IsSystemRun(m, config, run, moves)
    ensures Steps(config, cs, es) && Init(cs[0]) && Unfolds(run, moves, cs, es, at) && at[|moves|] == |es|
    decreases |moves|
  {
    hide Next, Init, SystemNext, Unfolds;
    if moves == [] {
      cs, es, at := [run[0].cluster], [], [0];
      UnfoldsFirst(run, moves);
      StartsInit(m, run[0]);
    } else {
      var k := |moves| - 1;
      RunPrefix(m, config, run, moves, k);
      var cs1, es1, at1 := AsClusterRun(m, config, run[..k + 1], moves[..k]);
      var cs2, es2 := MoveAsEvents(m, config, run[k], moves[k], run[k + 1]);
      UnfoldsAt(run[..k + 1], moves[..k], cs1, es1, at1, k);
      StepsJoin(config, cs1, es1, cs2, es2);
      UnfoldsMore(run, moves, cs1, es1, at1, cs2, es2);
      cs, es, at := cs1 + cs2[1..], es1 + es2, at1 + [|es1| + |es2|];
    }
  }

  lemma UnfoldsFirst<S>(run: seq<System<S>>, moves: seq<Move<S>>)
    requires |run| == 1 && moves == []
    ensures Unfolds(run, moves, [run[0].cluster], [], [0])
  {
  }

  lemma UnfoldsAt<S>(run: seq<System<S>>, moves: seq<Move<S>>, cs: seq<Cluster>, es: seq<Event>, at: seq<nat>, i: nat)
    requires Unfolds(run, moves, cs, es, at) && i < |run|
    ensures |at| == |run| && at[i] < |cs| && cs[at[i]] == run[i].cluster
  {
  }

  lemma StartsInit<S>(m: Machine<S>, s: System<S>)
    requires SystemInit(m, s)
    ensures Init(s.cluster)
  {
  }

  // ------------------------------------------------------------------- reads

  /** The barrier of a read that began with move `i` and has succeeded in state
      `j` is at or above whatever any node had committed until then. */
  lemma SystemBarrier<S>(m: Machine<S>, config: Config, run: seq<System<S>>, moves: seq<Move<S>>, i: nat, j: nat,
                         k: nat, u: NodeId)
    requires IsSystemRun(m, config, run, moves) && i < |moves| && i < j < |run| && k <= i
    requires moves[i].Core? && moves[i].event.BeginRead?
    requires moves[i].event.node in run[i].cluster.nodes && OwnAbove(run[i].cluster.nodes[moves[i].event.node])
    requires ReadSucceeds(run[j].cluster, moves[i].event.read) && u in run[k].cluster.nodes
    ensures run[k].cluster.nodes[u].commitIndex <= run[j].cluster.barriers[moves[i].event.read].index
  {
    hide IsSystemRun, Next, Init, OwnAbove, ReadSucceeds;
    var cs, es, at := AsClusterRun(m, config, run, moves);
    assert at[i] < at[i + 1] <= at[j] && at[k] <= at[i] && es[at[i]] == moves[i].event;
    assert IsRun(config, cs, es);
    ReadBarrier(config, cs, es, at[i], at[j], at[k], u);
  }

  /** No node says that it has applied more than it has committed. */
  lemma AppliedCommitted<S>(m: Machine<S>, config: Config, run: seq<System<S>>, moves: seq<Move<S>>, k: nat, u: NodeId)
    requires IsSystemRun(m, config, run, moves) && Faithful(m) && k < |run| && u in run[k].cluster.nodes
    ensures run[k].cluster.nodes[u].lastApplied <= run[k].cluster.nodes[u].commitIndex
  {
    hide IsSystemRun, Faithful, R.Rel, P.Grows, DataRel, BookAt, Streams;
    var hs := SystemRunTraced(m, config, run, moves);
    assert SystemRel(m, run[k], hs[k], BookAt(run, moves, k));
    AppliedFacts(run[k].cluster, hs[k], u);
  }

  /** Some node has committed as much by then. */
  ghost predicate Known<S>(run: seq<System<S>>, i: nat, x: nat)
    requires i < |run|
  {
    x == 0 || exists k, u :: KnownAt(run, i, x, k, u)
  }

  ghost predicate KnownAt<S>(run: seq<System<S>>, i: nat, x: nat, k: nat, u: NodeId)
    requires i < |run|
  {
    k <= i && u in run[k].cluster.nodes && x <= run[k].cluster.nodes[u].commitIndex
  }

  lemma KnownLater<S>(run: seq<System<S>>, i: nat, j: nat, x: nat)
    requires i <= j < |run| && Known(run, i, x)
    ensures Known(run, j, x)
  {
    if x > 0 {
      var k, u :| KnownAt(run, i, x, k, u);
      assert KnownAt(run, j, x, k, u);
    }
  }

  ghost predicate AllKnown<S>(run: seq<System<S>>, i: nat, reached: seq<nat>)
    requires i < |run|
  {
    forall x :: x in reached ==> Known(run, i, x)
  }

  ghost predicate BookKnown<S>(run: seq<System<S>>, i: nat, b: Book)
    requires i < |run|
  {
    && (forall v :: AllKnown(run, i, Reached(b, v)))
    && (forall v, j :: 0 <= j < |LoggedLives(b, v)| ==> AllKnown(run, i, LoggedLives(b, v)[j]))
    && forall s :: s in b.lives ==> AllKnown(run, i, b.lives[s])
  }

  lemma AllKnownLater<S>(run: seq<System<S>>, i: nat, j: nat, reached: seq<nat>)
    requires i <= j < |run| && AllKnown(run, i, reached)
    ensures AllKnown(run, j, reached)
  {
    hide Known;
    forall x | x in reached
      ensures Known(run, j, x)
    {
      KnownLater(run, i, j, x);
    }
  }

  lemma BookKnownLater<S>(run: seq<System<S>>, i: nat, j: nat, b: Book)
    requires i <= j < |run| && BookKnown(run, i, b)
    ensures BookKnown(run, j, b)
  {
    hide AllKnown;
    forall v
      ensures AllKnown(run, j, Reached(b, v))
    {
      AllKnownLater(run, i, j, Reached(b, v));
    }
    forall v, k | 0 <= k < |LoggedLives(b, v)|
      ensures AllKnown(run, j, LoggedLives(b, v)[k])
    {
      AllKnownLater(run, i, j, LoggedLives(b, v)[k]);
    }
    forall s | s in b.lives
      ensures AllKnown(run, j, b.lives[s])
    {
      AllKnownLater(run, i, j, b.lives[s]);
    }
  }

  /** What the applier has applied and what it records had been committed. */
  lemma RecordsKnown<S>(m: Machine<S>, config: Config, run: seq<System<S>>, moves: seq<Move<S>>, i: nat,
                        reached: seq<nat>)
    requires IsSystemRun(m, config, run, moves) && Faithful(m) && i < |moves| && moves[i].Apply? && |run| == |moves| + 1
    requires AllKnown(run, i + 1, reached)
    ensures moves[i].node in run[i].logs && moves[i].node in run[i + 1].logs
    ensures moves[i].node in run[i + 1].cluster.nodes
    ensures |run[i].logs[moves[i].node]| <= |run[i + 1].logs[moves[i].node]|
    ensures var v := moves[i].node;
            var lives :=
                RecordedLives(reached, run[i + 1].cluster.nodes[v].lastApplied,
                              |run[i + 1].logs[v]| - |run[i].logs[v]|);
            forall j :: 0 <= j < |lives| ==> AllKnown(run, i + 1, lives[j])
  {
    hide IsSystemRun, Faithful, SystemNext, Applier, Known;
    var v := moves[i].node;
    MoveAt(m, config, run, moves, i);
    ApplyShape(m, config, run[i], moves[i], run[i + 1]);
    AppliedCommitted(m, config, run, moves, i + 1, v);
    var n := run[i + 1].cluster.nodes[v];
    CommittedKnown(run, i + 1, v, n.lastApplied);
    if |run[i + 1].logs[v]| - |run[i].logs[v]| == 2 {
      CommittedKnown(run, i + 1, v, n.lastApplied + 1);
    }
  }

  lemma CommittedKnown<S>(run: seq<System<S>>, i: nat, v: NodeId, x: nat)
    requires i < |run| && v in run[i].cluster.nodes && x <= run[i].cluster.nodes[v].commitIndex
    ensures Known(run, i, x)
  {
    assert KnownAt(run, i, x, i, v);
  }

  lemma MoveAt<S>(m: Machine<S>, config: Config, run: seq<System<S>>, moves: seq<Move<S>>, i: nat)
    requires IsSystemRun(m, config, run, moves) && i < |moves| && i + 1 < |run|
    ensures SystemNext(m, config, run[i], moves[i], run[i + 1])
  {
    hide SystemNext, SystemInit;
  }

  lemma BookStep<S>(m: Machine<S>, config: Config, run: seq<System<S>>, moves: seq<Move<S>>, i: nat, b: Book)
    requires IsSystemRun(m, config, run, moves) && Faithful(m) && i < |moves| && |run| == |moves| + 1
    requires BookKnown(run, i, b)
    ensures BookKnown(run, i + 1, BookAfter(run[i], moves[i], run[i + 1], b))
  {
    hide AllKnown, IsSystemRun, Faithful, RecordedLives;
    BookKnownLater(run, i, i + 1, b);
    if moves[i].Snap? {
      SnapKnown(run, moves, i, b);
    } else if moves[i].Apply? {
      ApplyKnown(m, config, run, moves, i, b);
    } else if moves[i].Reopen? {
      ReopenKnown(run, moves, i, b);
    }
  }

  lemma SnapKnown<S>(run: seq<System<S>>, moves: seq<Move<S>>, i: nat, b: Book)
    requires i < |moves| && |run| == |moves| + 1 && BookKnown(run, i + 1, b) && moves[i].Snap?
    ensures BookKnown(run, i + 1, BookAfter(run[i], moves[i], run[i + 1], b))
  {
    hide AllKnown;
    var b' := BookAfter(run[i], moves[i], run[i + 1], b);
    assert AllKnown(run, i + 1, Reached(b, moves[i].node));
    forall v
      ensures Reached(b', v) == Reached(b, v) && LoggedLives(b', v) == LoggedLives(b, v)
    {
    }
  }

  lemma ReopenKnown<S>(run: seq<System<S>>, moves: seq<Move<S>>, i: nat, b: Book)
    requires i < |moves| && |run| == |moves| + 1 && BookKnown(run, i + 1, b) && moves[i].Reopen?
    ensures BookKnown(run, i + 1, BookAfter(run[i], moves[i], run[i + 1], b))
  {
    hide AllKnown;
    var v, b' := moves[i].node, BookAfter(run[i], moves[i], run[i + 1], b);
    assert forall u :: u != v ==> Reached(b', u) == Reached(b, u) && LoggedLives(b', u) == LoggedLives(b, u);
    assert Reached(b', v) == Reached(b, v) || Reached(b', v) in LoggedLives(b, v);
    assert forall j :: 0 <= j < |LoggedLives(b', v)| ==>
             j < |LoggedLives(b, v)| && LoggedLives(b', v)[j] == LoggedLives(b, v)[j];
    forall u
      ensures AllKnown(run, i + 1, Reached(b', u))
    {
      assert AllKnown(run, i + 1, Reached(b, u));
    }
  }

  lemma ApplyKnown<S>(m: Machine<S>, config: Config, run: seq<System<S>>, moves: seq<Move<S>>, i: nat, b: Book)
    requires IsSystemRun(m, config, run, moves) && Faithful(m) && i < |moves| && |run| == |moves| + 1 && moves[i].Apply?
    requires BookKnown(run, i + 1, b)
    ensures BookKnown(run, i + 1, BookAfter(run[i], moves[i], run[i + 1], b))
  {
    hide AllKnown, IsSystemRun, Faithful, RecordedLives;
    var v, b' := moves[i].node, BookAfter(run[i], moves[i], run[i + 1], b);
    RecordsKnown(m, config, run, moves, i, []) by {
      NothingKnown(run, i + 1);
    }
    if v in run[i].cluster.nodes {
      var reached := ReachedAfter(b, v, run[i].cluster.nodes[v], run[i + 1].cluster.nodes[v]);
      ReachedKnown(run, i + 1, b, v, run[i].cluster.nodes[v], run[i + 1].cluster.nodes[v]);
      RecordsKnown(m, config, run, moves, i, reached);
      assert forall u :: u != v ==> Reached(b', u) == Reached(b, u) && LoggedLives(b', u) == LoggedLives(b, u);
    }
    forall u
      ensures AllKnown(run, i + 1, Reached(b', u))
    {
      assert AllKnown(run, i + 1, Reached(b, u));
    }
  }

  lemma NothingKnown<S>(run: seq<System<S>>, i: nat)
    requires i < |run|
    ensures AllKnown(run, i, [])
  {
  }

  lemma ReachedKnown<S>(run: seq<System<S>>, i: nat, b: Book, v: NodeId, n: Node, n': Node)
    requires i < |run| && BookKnown(run, i, b)
    ensures AllKnown(run, i, ReachedAfter(b, v, n, n'))
  {
    hide AllKnown;
    NothingKnown(run, i);
  }

  /** Whatever lifetimes left, and whatever was recorded of them, had been
      committed by then. */
  lemma {:induction false} LivesCommitted<S>(m: Machine<S>, config: Config, run: seq<System<S>>, moves: seq<Move<S>>,
                                             i: nat)
    requires IsSystemRun(m, config, run, moves) && Faithful(m) && i <= |moves| && |run| == |moves| + 1
    ensures BookKnown(run, i, BookAt(run, moves, i))
  {
    hide IsSystemRun, Faithful, BookKnown, BookAfter;
    if i == 0 {
      FirstKnown(run);
    } else {
      LivesCommitted(m, config, run, moves, i - 1);
      BookStep(m, config, run, moves, i - 1, BookAt(run, moves, i - 1));
    }
  }

  lemma FirstKnown<S>(run: seq<System<S>>)
    requires |run| > 0
    ensures BookKnown(run, 0, NO_LEFTOVERS)
  {
  }

  /** A lifetime that had come as far as `x` is in the book. */
  ghost predicate InBook(b: Book, x: nat) {
    || (exists v :: x in Reached(b, v))
    || (exists v, j :: 0 <= j < |LoggedLives(b, v)| && x in LoggedLives(b, v)[j])
    || (exists s :: s in b.lives && x in b.lives[s])
  }

  lemma InBookKnown<S>(run: seq<System<S>>, i: nat, b: Book, x: nat)
    requires i < |run| && BookKnown(run, i, b) && InBook(b, x)
    ensures Known(run, i, x)
  {
    hide Known;
    if v :| x in Reached(b, v) {
      assert AllKnown(run, i, Reached(b, v));
    } else if v, j :| 0 <= j < |LoggedLives(b, v)| && x in LoggedLives(b, v)[j] {
      assert AllKnown(run, i, LoggedLives(b, v)[j]);
    } else {
      var s :| s in b.lives && x in b.lives[s];
      assert AllKnown(run, i, b.lives[s]);
    }
  }

  /** A consistent read: a node that has applied as far as the barrier serves
      the fold of a prefix of the committed entries that has every entry which
      any node had committed when the read began. If the node holds leftovers
      of a lifetime that had come further than the node now is, that lifetime
      must have been over, or recorded, before the read began: what other
      nodes do meanwhile does not matter unless the node restores their
      snapshots. */
  lemma ConsistentRead<S>(m: Machine<S>, config: Config, run: seq<System<S>>, moves: seq<Move<S>>, i: nat, j: nat,
                          l: nat, v: NodeId)
      returns (chosen: seq<Entry>)
    requires IsSystemRun(m, config, run, moves) && Faithful(m) && i < |moves| && i < j < |run| && l < |run|
    requires moves[i].Core? && moves[i].event.BeginRead?
    requires moves[i].event.node in run[i].cluster.nodes && OwnAbove(run[i].cluster.nodes[moves[i].event.node])
    requires ReadSucceeds(run[j].cluster, moves[i].event.read)
    requires v in run[l].apps && v in run[l].cluster.nodes && run[l].cluster.nodes[v].pendingSnapshot.None?
    requires run[j].cluster.barriers[moves[i].event.read].index <= run[l].cluster.nodes[v].lastApplied
    requires forall x :: x in Reached(BookAt(run, moves, l), v) ==>
               x <= run[l].cluster.nodes[v].lastApplied || InBook(BookAt(run, moves, i), x)
    ensures var n := run[l].cluster.nodes[v].lastApplied;
            && n <= |chosen| && run[l].apps[v] == Fold(m, chosen[..n])
            && forall k, u :: 0 <= k <= i && u in run[k].cluster.nodes ==>
                 run[k].cluster.nodes[u].commitIndex <= n && DrawnFrom(run[k].cluster.nodes[u], chosen)
  {
    hide IsSystemRun, DataRel, Faithful, BookAt, OwnAbove, ReadSucceeds, DrawnFrom, FoldFrom, Reached, InBook,
         BookKnown, Left;
    RunLength(m, config, run, moves);
    chosen := ApplyRefinement(m, config, run, moves);
    var n := run[l].cluster.nodes[v].lastApplied;
    forall k, u | 0 <= k <= i && u in run[k].cluster.nodes
      ensures run[k].cluster.nodes[u].commitIndex <= n && DrawnFrom(run[k].cluster.nodes[u], chosen)
    {
      SystemBarrier(m, config, run, moves, i, j, k, u);
      DrawnAt(m, run[k], u, chosen, BookAt(run, moves, k));
    }
    LivesCommitted(m, config, run, moves, i);
    var reached := Reached(BookAt(run, moves, l), v);
    forall o | 0 <= o < |reached|
      ensures reached[o] <= n
    {
      assert reached[o] in reached;
      if InBook(BookAt(run, moves, i), reached[o]) {
        InBookKnown(run, i, BookAt(run, moves, i), reached[o]);
      }
    }
    DataExact(m, run[l], v, chosen, BookAt(run, moves, l));
  }

  lemma DrawnAt<S>(m: Machine<S>, s: System<S>, u: NodeId, chosen: seq<Entry>, b: Book)
    requires DataRel(m, s, chosen, b) && u in s.cluster.nodes
    ensures DrawnFrom(s.cluster.nodes[u], chosen)
  {
    hide GoodNode, GoodState, GoodLog, GoodMessages, DrawnFrom, AllGood;
    assert GoodAt(m, s, chosen, b, u);
  }
}
