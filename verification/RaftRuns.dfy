/** What holds of every run of a cluster: the safety theorems of Raft, stated
    about the nodes themselves. */
module RaftRuns {
  import opened Options
  import opened RaftTypes
  import opened RaftMessages
  import opened RaftLog
  import opened RaftHandlers
  import opened RaftCluster
  import opened RaftRefinement
  import opened RaftSimulation
  import opened RaftElectionSim
  import opened RaftReplicationSim
  import opened RaftSnapshotSim
  import opened RaftTornSim
  import opened RaftSafety
  import C = Consensus
  import P = ConsensusProofs

  // ------------------------------------------------------ histories of a run

  function NewServer(): C.Server {
    C.Server(0, NOBODY, Follower, [], {}, 0, 0)
  }

  /** The history of a cluster in which nothing has happened. */
  ghost predicate NewHistory(h: C.State, members: set<NodeId>) {
    && h.servers.Keys == members
    && (forall v :: v in members ==> h.servers[v] == NewServer())
    && h == C.State(h.servers, map[], map[], map[], [], 0)
  }

  lemma {:induction false} NewServers(members: set<NodeId>) returns (servers: map<NodeId, C.Server>)
    ensures servers.Keys == members && forall v :: v in members ==> servers[v] == NewServer()
  {
    servers := map[];
    if members != {} {
      var v :| v in members;
      var rest := NewServers(members - {v});
      servers := rest[v := NewServer()];
    }
  }

  lemma NewHistoryValid(h: C.State, members: set<NodeId>)
    requires NOBODY !in members && NewHistory(h, members)
    ensures C.Inv(h)
  {
  }

  lemma InitRelated(c: Cluster) returns (h: C.State)
    requires Init(c)
    ensures Rel(c, h)
  {
    hide C.Inv;
    var servers := NewServers(c.nodes.Keys);
    h := C.State(servers, map[], map[], map[], [], 0);
    NewHistoryValid(h, c.nodes.Keys);
    forall v | v in c.nodes
      ensures NodeRel(c.nodes[v], c.disks[v], h, v)
    {
      assert c.nodes[v].log == [Entry(0, 0, [])];
    }
  }

  /** One history per state of the run, each extending all earlier ones. */
  ghost predicate Traced(run: seq<Cluster>, hs: seq<C.State>) {
    && |hs| == |run|
    && (forall i :: 0 <= i < |run| ==> Rel(run[i], hs[i]))
    && (forall i, j :: 0 <= i <= j < |run| ==> P.Grows(hs[i], hs[j]))
  }

  lemma {:induction false} RunTraced(config: Config, run: seq<Cluster>, events: seq<Event>) returns (hs: seq<C.State>)
    requires IsRun(config, run, events)
    ensures Traced(run, hs) && |run| > 0
    decreases |events|
  {
    hide Rel, P.Grows, Init, Next;
    if events == [] {
      var h := InitRelated(run[0]);
      hs := [h];
      GrowsItself(h);
    } else {
      var k := |events| - 1;
      var before := RunTraced(config, run[..k + 1], events[..k]);
      var h := StepKeeps(run[k], config, events[k], run[k + 1], before[k]);
      hs := before + [h];
      GrowsItself(h);
      TraceGrows(before, h);
      assert forall i :: 0 <= i < |run| - 1 ==> run[..k + 1][i] == run[i];
    }
  }

  lemma GrowsItself(h: C.State)
    ensures P.Grows(h, h)
  {
  }

  lemma TraceGrows(before: seq<C.State>, h: C.State)
    requires |before| > 0 && P.Grows(before[|before| - 1], h)
    requires forall i, j :: 0 <= i <= j < |before| ==> P.Grows(before[i], before[j])
    ensures forall i :: 0 <= i < |before| ==> P.Grows(before[i], h)
  {
    hide P.Grows;
    forall i | 0 <= i < |before|
      ensures P.Grows(before[i], h)
    {
      P.GrowsTransitive(before[i], before[|before| - 1], h);
    }
  }

  // --------------------------------------------------------- election safety

  /** Node `v` leads term `t`. */
  predicate Leads(c: Cluster, v: NodeId, t: nat) {
    v in c.nodes && c.nodes[v].role == Leader && c.nodes[v].currentTerm == t
  }

  lemma LeadsReigns(c: Cluster, h: C.State, v: NodeId, t: nat)
    requires Rel(c, h) && Leads(c, v, t)
    ensures t in h.reigns && h.reigns[t].leader == v && v in h.servers && h.reigns[t].log == h.servers[v].log
    ensures Represents(c.nodes[v].log, h.reigns[t].log)
  {
    RelatedNode(c, h, v);
    LeaderIsWhole(c.nodes[v], c.disks[v], h, v);
    LeaderReigns(h, v);
  }

  /** No term ever has two leaders, whatever states of the run they lead in. */
  lemma ElectionSafety(config: Config, run: seq<Cluster>, events: seq<Event>, i: nat, j: nat, u: NodeId, v: NodeId,
                       t: nat)
    requires IsRun(config, run, events) && i < |run| && j < |run|
    requires Leads(run[i], u, t) && Leads(run[j], v, t)
    ensures u == v
  {
    hide IsRun, Rel, P.Grows, Leads;
    var hs := RunTraced(config, run, events);
    LeadsReigns(run[i], hs[i], u, t);
    LeadsReigns(run[j], hs[j], v, t);
    if i <= j {
      GrownReign(hs[i], hs[j], t);
    } else {
      GrownReign(hs[j], hs[i], t);
    }
  }

  /** Node `v` has given its vote of term `t` to `candidate`: it holds that
      vote, or has sent a reply that grants it. */
  ghost predicate HasVoted(c: Cluster, v: NodeId, t: nat, candidate: NodeId) {
    || (v in c.nodes && c.nodes[v].currentTerm == t && c.nodes[v].votedFor == candidate != NOBODY)
    || (exists m :: m in c.messages && Grants(m, v, t, candidate))
  }

  predicate Grants(m: Message, v: NodeId, t: nat, candidate: NodeId) {
    m.VoteReply? && m.src == v && m.dst == candidate && m.vote.term == t && m.voted.granted
  }

  lemma VoteRecordedInHistory(c: Cluster, h: C.State, v: NodeId, t: nat, candidate: NodeId)
    requires Rel(c, h) && HasVoted(c, v, t, candidate)
    ensures (v, t) in h.ballots && h.ballots[(v, t)].candidate == candidate
  {
    hide C.Inv;
    if exists m :: m in c.messages && Grants(m, v, t, candidate) {
      var m :| m in c.messages && Grants(m, v, t, candidate);
      RelatedMessage(c, h, m);
    } else {
      RelatedNode(c, h, v);
      VoteRecorded(h, v);
    }
  }

  lemma BallotStays(h: C.State, h': C.State, v: NodeId, t: nat)
    requires P.Grows(h, h') && (v, t) in h.ballots
    ensures (v, t) in h'.ballots && h'.ballots[(v, t)] == h.ballots[(v, t)]
  {
  }

  /** No node ever votes for two candidates in one term, across crashes,
      restarts and failed saves. */
  lemma OneVotePerTerm(config: Config, run: seq<Cluster>, events: seq<Event>, i: nat, j: nat, v: NodeId, t: nat,
                       a: NodeId, b: NodeId)
    requires IsRun(config, run, events) && i < |run| && j < |run|
    requires HasVoted(run[i], v, t, a) && HasVoted(run[j], v, t, b)
    ensures a == b
  {
    hide IsRun, Rel, P.Grows, HasVoted;
    var hs := RunTraced(config, run, events);
    VoteRecordedInHistory(run[i], hs[i], v, t, a);
    VoteRecordedInHistory(run[j], hs[j], v, t, b);
    if i <= j {
      BallotStays(hs[i], hs[j], v, t);
    } else {
      BallotStays(hs[j], hs[i], v, t);
    }
  }

  // ------------------------------------------------------------ log matching

  /** The later of two states of a trace. */
  function Later(hs: seq<C.State>, i: nat, j: nat): C.State
    requires i < |hs| && j < |hs|
  {
    if i <= j then hs[j] else hs[i]
  }

  lemma LaterGrows(run: seq<Cluster>, hs: seq<C.State>, i: nat, j: nat)
    requires Traced(run, hs) && i < |hs| && j < |hs|
    ensures P.Grows(hs[i], Later(hs, i, j)) && P.Grows(hs[j], Later(hs, i, j)) && C.Inv(Later(hs, i, j))
  {
    hide C.Inv, P.Grows, Linked;
  }

  /** Above its boundary, the slice is the end of `full`. */
  predicate EndOf(l: Slice, full: seq<Entry>) {
    |l| > 0 && Boundary(l) <= |full| && l[1..] == full[Boundary(l)..]
  }

  lemma TiedEnd(n: Node, d: Disk, h: C.State, v: NodeId)
    requires Tied(n, d, h, v)
    requires C.Inv(h)
    ensures v in h.servers && n.id == v && ValidNode(n) && DiskRel(n, d) && EndOf(n.log, h.servers[v].log)
    ensures Numbered(h.servers[v].log)
  {
    hide C.Inv, Tied, DiskRel, SnapshotRel, PeersOf, Numbered;
    TiedSuffix(n, d, h, v);
  }

  lemma GroundedLater(c: Cluster, h: C.State, h': C.State, v: NodeId)
    requires v in c.nodes && P.Grows(h, h')
    requires Rel(c, h)
    ensures v in h.servers && ValidNode(c.nodes[v])
    ensures EndOf(c.nodes[v].log, h.servers[v].log) && C.Grounded(h'.reigns, h.servers[v].log)
  {
    hide C.Grounded, C.BallotsValid, C.AcksValid, C.Keeps, C.SettledValid, C.ChosenValid, MessageRel, Linked, Tied,
         DiskRel, Numbered, EndOf;
    RelatedNode(c, h, v);
    TiedEnd(c.nodes[v], c.disks[v], h, v);
    P.GroundedExtend(h.reigns, h'.reigns, h.servers[v].log);
  }

  predicate HasTerm(c: Cluster, v: NodeId, x: nat, t: nat) {
    v in c.nodes && ValidNode(c.nodes[v]) && TermAt(c.nodes[v].log, x) == Some(t)
  }

  predicate HasEntry(c: Cluster, v: NodeId, x: nat, e: Entry) {
    v in c.nodes && ValidNode(c.nodes[v]) && x > Boundary(c.nodes[v].log) && EntryAt(c.nodes[v].log, x) == Some(e)
  }

  /** Index `x` has been folded into the snapshot of `v`. */
  predicate Compacts(c: Cluster, v: NodeId, x: nat) {
    v in c.nodes && ValidNode(c.nodes[v]) && x <= Boundary(c.nodes[v].log)
  }

  /** What a slice of the complete log shows at index `x`. */
  lemma Shown(l: Slice, full: seq<Entry>, x: nat)
    requires Represents(l, full) && 0 < x
    ensures |l| > 0 && LastIndex(l) == |full|
    ensures Boundary(l) < x <= |full| ==> EntryAt(l, x) == Some(full[x - 1])
    ensures Boundary(l) <= x <= |full| ==> TermAt(l, x) == Some(full[x - 1].term)
    ensures !(Boundary(l) <= x <= |full|) ==> TermAt(l, x) == None
    ensures x > |full| ==> EntryAt(l, x) == None
  {
    CompactionInvisible(l, full);
  }

  lemma ShownAbove(l: Slice, full: seq<Entry>, x: nat)
    requires EndOf(l, full) && Boundary(l) < x
    ensures LastIndex(l) == |full|
    ensures x <= |full| ==> EntryAt(l, x) == Some(full[x - 1]) && TermAt(l, x) == Some(full[x - 1].term)
    ensures x > |full| ==> EntryAt(l, x) == None && TermAt(l, x) == None
  {
    var b := Boundary(l);
    assert |l[1..]| == |full| - b;
    if x <= |full| {
      assert l[x - b] == l[1..][x - b - 1] == full[b..][x - b - 1];
    }
  }

  /** Two logs that agree on the term at one index agree on every earlier
      entry that they still hold, in whatever states of the run they are. */
  lemma LogMatching(config: Config, run: seq<Cluster>, events: seq<Event>, i: nat, j: nat, u: NodeId, v: NodeId,
                    x: nat, t: nat, y: nat, e: Entry)
    requires IsRun(config, run, events) && i < |run| && j < |run|
    requires HasTerm(run[i], u, x, t) && HasTerm(run[j], v, x, t)
    requires y <= x && HasEntry(run[i], u, y, e)
    ensures HasEntry(run[j], v, y, e) || Compacts(run[j], v, y)
  {
    hide IsRun, Rel, P.Grows, C.Grounded, EndOf;
    var hs := RunTraced(config, run, events);
    LaterGrows(run, hs, i, j);
    var h := Later(hs, i, j);
    GroundedLater(run[i], hs[i], h, u);
    GroundedLater(run[j], hs[j], h, v);
    PrefixesMatch(run[i].nodes[u].log, run[j].nodes[v].log, h.reigns, hs[i].servers[u].log, hs[j].servers[v].log, x, y);
  }

  lemma PrefixesMatch(k: Slice, l: Slice, reigns: map<nat, C.Reign>, a: C.Log, b: C.Log, x: nat, y: nat)
    requires EndOf(k, a) && EndOf(l, b) && C.Grounded(reigns, a) && C.Grounded(reigns, b)
    requires TermAt(k, x).Some? && TermAt(k, x) == TermAt(l, x) && Boundary(k) < y <= x
    ensures Boundary(l) < y ==> EntryAt(k, y).Some? && EntryAt(l, y) == EntryAt(k, y)
  {
    hide EndOf, C.Grounded;
    if Boundary(l) < y {
      ShownAbove(k, a, x);
      ShownAbove(l, b, x);
      P.GroundedMatch(reigns, a, b, x - 1);
      ShownAbove(k, a, y);
      ShownAbove(l, b, y);
      assert a[..x][y - 1] == b[..x][y - 1];
    }
  }

  // ---------------------------------------------------- state machine safety

  /** Everything that the node counts as committed, and the start of its log,
      comes from `chosen`. */
  predicate DrawnFrom(n: Node, chosen: seq<Entry>) {
    && ValidNode(n)
    && n.commitIndex <= |chosen|
    && Boundary(n.log) <= |chosen|
    && (Boundary(n.log) > 0 ==> n.log[0].term == chosen[Boundary(n.log) - 1].term)
    && forall x :: Boundary(n.log) < x <= n.commitIndex ==> EntryAt(n.log, x) == Some(chosen[x - 1])
  }

  lemma NodeDrawn(c: Cluster, h: C.State, v: NodeId, chosen: seq<Entry>)
    requires v in c.nodes && h.chosen <= chosen
    requires Rel(c, h)
    ensures DrawnFrom(c.nodes[v], chosen)
  {
    hide Rel, C.Inv, Represents;
    RelatedNode(c, h, v);
    if NodeRel(c.nodes[v], c.disks[v], h, v) {
      WholeDrawn(c.nodes[v], c.disks[v], h, v, chosen);
    } else {
      TornDrawn(c.nodes[v], c.disks[v], h, v, chosen);
    }
  }

  lemma TornDrawn(n: Node, d: Disk, h: C.State, v: NodeId, chosen: seq<Entry>)
    requires TornRel(n, d, h, v) && h.chosen <= chosen
    ensures DrawnFrom(n, chosen)
  {
    TornWitness(n.log, h, h.servers[v]);
  }

  lemma WholeDrawn(n: Node, d: Disk, h: C.State, v: NodeId, chosen: seq<Entry>)
    requires NodeRel(n, d, h, v) && h.chosen <= chosen
    requires C.Inv(h)
    ensures DrawnFrom(n, chosen)
  {
    hide C.Inv, Represents;
    var full := h.servers[v].log;
    CommitWithin(h, v);
    SettledFacts(h, v, h.servers[v].settled);
    var b := Boundary(n.log);
    if b > 0 {
      Shown(n.log, full, b);
    }
    forall x | b < x <= n.commitIndex
      ensures EntryAt(n.log, x) == Some(chosen[x - 1])
    {
      Shown(n.log, full, x);
    }
  }

  /** State machine safety in its strongest form: there is one sequence of
      entries from which every node, in every state of the run, draws all that
      it has committed or folded into a snapshot. */
  lemma OneHistory(config: Config, run: seq<Cluster>, events: seq<Event>) returns (chosen: seq<Entry>)
    requires IsRun(config, run, events)
    ensures forall i, v :: 0 <= i < |run| && v in run[i].nodes ==> DrawnFrom(run[i].nodes[v], chosen)
  {
    hide IsRun, Rel, P.Grows, DrawnFrom;
    var hs := RunTraced(config, run, events);
    chosen := hs[|run| - 1].chosen;
    forall i, v | 0 <= i < |run| && v in run[i].nodes
      ensures DrawnFrom(run[i].nodes[v], chosen)
    {
      ChosenGrows(hs[i], hs[|run| - 1]);
      NodeDrawn(run[i], hs[i], v, chosen);
    }
  }

  lemma ChosenGrows(h: C.State, h': C.State)
    requires P.Grows(h, h')
    ensures h.chosen <= h'.chosen
  {
  }

  predicate HasCommitted(c: Cluster, v: NodeId, x: nat, e: Entry) {
    HasEntry(c, v, x, e) && x <= c.nodes[v].commitIndex
  }

  /** Two nodes never commit different entries at one index. */
  lemma StateMachineSafety(config: Config, run: seq<Cluster>, events: seq<Event>, i: nat, j: nat, u: NodeId, v: NodeId,
                           x: nat, a: Entry, b: Entry)
    requires IsRun(config, run, events) && i < |run| && j < |run|
    requires HasCommitted(run[i], u, x, a) && HasCommitted(run[j], v, x, b)
    ensures a == b
  {
    hide IsRun;
    var chosen := OneHistory(config, run, events);
    assert DrawnFrom(run[i].nodes[u], chosen) && DrawnFrom(run[j].nodes[v], chosen);
  }

  /** Leader completeness: an entry that a node has committed is in the log of
      every leader, from then on, of its term or a later one. */
  lemma LeaderCompleteness(config: Config, run: seq<Cluster>, events: seq<Event>, i: nat, j: nat, u: NodeId, v: NodeId,
                           x: nat, e: Entry, t: nat)
    requires IsRun(config, run, events) && i <= j < |run|
    requires HasCommitted(run[i], u, x, e) && Leads(run[j], v, t) && run[i].nodes[u].currentTerm <= t
    ensures HasEntry(run[j], v, x, e) || Compacts(run[j], v, x)
  {
    hide IsRun, Rel, P.Grows, C.Inv, Represents, C.Witnessed, C.ReignsKeep;
    var hs := RunTraced(config, run, events);
    var h, h' := hs[i], hs[j];
    LeadsReigns(run[j], h', v, t);
    RelatedNode(run[i], h, u);
    RelatedNode(run[j], h', v);
    LeaderIsWhole(run[j].nodes[v], run[j].disks[v], h', v);
    CommittedIsWhole(run[i].nodes[u], run[i].disks[u], h, u, x);
    CommitWithin(h, u);
    SettledFacts(h, u, x);
    P.WitnessedForward(h, h', x, h.servers[u].term, t);
    InvReigns(h');
    P.WitnessedWithin(h', x, t, t);
    ChosenGrows(h, h');
    Shown(run[i].nodes[u].log, h.servers[u].log, x);
    Shown(run[j].nodes[v].log, h'.reigns[t].log, x);
    assert h.chosen[..x][x - 1] == h'.chosen[..x][x - 1] == h'.reigns[t].log[x - 1];
  }

  /** A node that has committed an entry above its boundary is not torn. */
  lemma CommittedIsWhole(n: Node, d: Disk, h: C.State, v: NodeId, x: nat)
    requires Tied(n, d, h, v) && ValidNode(n) && Boundary(n.log) < x <= n.commitIndex
    ensures NodeRel(n, d, h, v)
  {
  }

  // ------------------------------------------------- what a leader's log keeps

  /** The entries of a leader's AppendEntries never replace an entry that the
      leader's own log has at that index. */
  lemma AppendKeepsShared(n: Node, d: Disk, full: C.Log, h: C.State, src: NodeId, args: AppendEntriesArgs,
                          saveTerm: bool, saveLog: bool, x: nat)
    requires ValidNode(n) && DiskRel(n, d) && Represents(n.log, full) && AppendRel(h, src, args)
    requires C.Grounded(h.reigns, full) && C.Grounded(h.reigns, h.reigns[args.term].log)
    requires Boundary(n.log) < x <= |h.reigns[args.term].log|
    requires EntryAt(n.log, x) == Some(h.reigns[args.term].log[x - 1])
    ensures var (n', _, _) := HandleAppendEntries(n, d, args, saveTerm, saveLog);
            && ValidNode(n')
            && Boundary(n'.log) == Boundary(n.log)
            && EntryAt(n'.log, x) == EntryAt(n.log, x)
  {
    hide Represents, C.Grounded, C.Witnessed, Matching, AppendAfter, CommonTerms, DiskRel;
    var leader := h.reigns[args.term].log;
    Shown(n.log, full, x);
    var (n1, d1, current) := Recognize(n, d, args.term, saveTerm);
    OverlayKeepsEntry(h.reigns, full, leader, args.prevIndex + |args.entries|, x);
    RecognizedDisk(n, d, full, args.term, saveTerm);
    if current && TermAt(n1.log, args.prevIndex) == Some(args.prevTerm) {
      AcceptShape(n1, d1, h.reigns, full, leader, args);
      Shown(Accepted(n1, args).log, C.Overlay(full, leader[..args.prevIndex + |args.entries|]), x);
    }
  }

  lemma RecognizedDisk(n: Node, d: Disk, full: C.Log, term: nat, save: bool)
    requires ValidNode(n) && DiskRel(n, d) && Represents(n.log, full) && Numbered(full)
    ensures var (n1, d1, _) := Recognize(n, d, term, save); n1.log == n.log && DiskRel(n1, d1)
  {
    SavedRel(SteppedDown(n, term), d, full);
  }

  lemma OverlayKeepsEntry(reigns: map<nat, C.Reign>, full: C.Log, leader: C.Log, k: nat, x: nat)
    requires C.Grounded(reigns, full) && C.Grounded(reigns, leader) && k <= |leader|
    requires 0 < x <= |full| && x <= |leader| && full[x - 1] == leader[x - 1]
    ensures x <= |C.Overlay(full, leader[..k])| && C.Overlay(full, leader[..k])[x - 1] == full[x - 1]
    ensures Numbered(full)
  {
    if k < x {
      P.GroundedMatch(reigns, full, leader, x - 1);
      assert leader[..k] == full[..k];
    }
  }

  /** Delivering any AppendEntries of a leader, however late and in whatever
      order, keeps every entry that this leader holds. */
  lemma AppendNeverRemoves(config: Config, run: seq<Cluster>, events: seq<Event>, i: nat, j: nat, x: nat, e: Entry)
    requires IsRun(config, run, events) && i < |events| && j < |run|
    requires events[i].DeliverAppend? && events[i].message.AppendRequest?
    requires Leads(run[j], events[i].message.src, events[i].message.append.term)
    requires HasEntry(run[j], events[i].message.src, x, e) && HasEntry(run[i], events[i].message.dst, x, e)
    ensures HasEntry(run[i + 1], events[i].message.dst, x, e)
  {
    hide Rel, P.Grows, C.Inv, Represents, AppendRel, HandleAppendEntries, Init, C.Grounded, Traced, NodeRel, TornRel;
    var m := events[i].message;
    var v, t := m.dst, m.append.term;
    assert Next(run[i], config, events[i], run[i + 1]);
    var hs := RunTraced(config, run, events);
    var h := LeaderLogLater(run, hs, i, j, m.src, t, x, e);
    DestinationLater(run, hs, i, j, m);
    var n, d := run[i].nodes[v], run[i].disks[v];
    if NodeRel(n, d, hs[i], v) {
      WholeLog(n, d, hs[i], v);
      AppendKeepsShared(n, d, hs[i].servers[v].log, h, m.src, m.append, events[i].saveTerm, events[i].saveLog, x);
    } else {
      LaterTrace(run, hs, i, j);
      TornSharesNothing(n, d, hs[i], h, v, t, x, e);
      StaleIgnored(n, d, m.append, events[i].saveTerm, events[i].saveLog);
    }
  }

  lemma LaterTrace(run: seq<Cluster>, hs: seq<C.State>, i: nat, j: nat)
    requires Traced(run, hs) && i < |run| && j < |run|
    ensures |hs| == |run| && P.Grows(hs[i], Later(hs, i, j)) && C.Inv(Later(hs, i, j))
  {
    hide C.Inv, P.Grows, Linked;
  }

  lemma WholeLog(n: Node, d: Disk, h: C.State, v: NodeId)
    requires NodeRel(n, d, h, v)
    ensures v in h.servers && Represents(n.log, h.servers[v].log)
  {
  }

  /** A leader whose log has an entry of a torn one is of an earlier term. */
  lemma TornSharesNothing(n: Node, d: Disk, h: C.State, h': C.State, v: NodeId, t: nat, x: nat, e: Entry)
    requires TornRel(n, d, h, v) && P.Grows(h, h') && C.Grounded(h'.reigns, h.servers[v].log)
    requires ValidNode(n) && x > Boundary(n.log) && EntryAt(n.log, x) == Some(e)
    requires t in h'.reigns && 0 < x <= |h'.reigns[t].log| && h'.reigns[t].log[x - 1] == e
    requires C.Grounded(h'.reigns, h'.reigns[t].log)
    requires C.Inv(h')
    ensures t < n.currentTerm
  {
    hide C.Inv, C.Grounded, C.Witnessed, P.Grows, C.ReignsKeep;
    var s, b := h.servers[v], Boundary(n.log);
    if t >= n.currentTerm {
      TornWitness(n.log, h, s);
      P.WitnessedForward(h, h', b, s.term, t);
      InvReigns(h');
      P.WitnessedWithin(h', b, t, t);
      ChosenGrows(h, h');
      ShownAbove(n.log, s.log, x);
      assert h'.chosen[..b] == h.chosen[..b];
      SharedTerm(h'.reigns, s.log, h'.reigns[t].log, h'.chosen[..b], x);
    }
  }

  lemma StaleIgnored(n: Node, d: Disk, args: AppendEntriesArgs, saveTerm: bool, saveLog: bool)
    requires ValidNode(n) && args.term < n.currentTerm
    ensures HandleAppendEntries(n, d, args, saveTerm, saveLog).0 == n
  {
  }

  lemma LeaderLogLater(run: seq<Cluster>, hs: seq<C.State>, i: nat, j: nat, v: NodeId, t: nat, x: nat, e: Entry)
      returns (h: C.State)
    requires Traced(run, hs) && i < |run| && j < |run| && Leads(run[j], v, t) && HasEntry(run[j], v, x, e)
    ensures |hs| == |run| && h == Later(hs, i, j) && t in h.reigns && C.Grounded(h.reigns, h.reigns[t].log)
    ensures 0 < x <= |h.reigns[t].log| && h.reigns[t].log[x - 1] == e
  {
    hide Rel, P.Grows, C.Inv, Represents;
    LaterGrows(run, hs, i, j);
    h := Later(hs, i, j);
    LeadsReigns(run[j], hs[j], v, t);
    Shown(run[j].nodes[v].log, hs[j].reigns[t].log, x);
    GrownReign(hs[j], h, t);
    ReignGrounded(h, t);
  }

  lemma ReignGrounded(h: C.State, t: nat)
    requires t in h.reigns
    requires C.Inv(h)
    ensures C.Grounded(h.reigns, h.reigns[t].log)
  {
  }

  lemma DestinationLater(run: seq<Cluster>, hs: seq<C.State>, i: nat, j: nat, m: Message)
    requires Traced(run, hs) && i < |run| && j < |run| && m in run[i].messages && m.dst in run[i].nodes
    requires m.AppendRequest?
    ensures |hs| == |run| && m.dst in hs[i].servers && m.dst in run[i].disks && ValidNode(run[i].nodes[m.dst])
    ensures Tied(run[i].nodes[m.dst], run[i].disks[m.dst], hs[i], m.dst)
    ensures DiskRel(run[i].nodes[m.dst], run[i].disks[m.dst])
    ensures C.Grounded(Later(hs, i, j).reigns, hs[i].servers[m.dst].log)
    ensures AppendRel(Later(hs, i, j), m.src, m.append)
  {
    hide Rel, P.Grows, C.Inv, Represents, AppendRel, DiskRel;
    LaterGrows(run, hs, i, j);
    RelatedNode(run[i], hs[i], m.dst);
    TiedSuffix(run[i].nodes[m.dst], run[i].disks[m.dst], hs[i], m.dst);
    RelatedMessage(run[i], hs[i], m);
    GroundedLater(run[i], hs[i], Later(hs, i, j), m.dst);
    AppendForward(hs[i], Later(hs, i, j), m.src, m.append);
  }

  // ------------------------------------------------------------------ restarts

  /** In every state a node's files fit together, and loading them gives back
      its term, its vote and, above the saved snapshot, exactly its log. */
  lemma RestartRestores(config: Config, run: seq<Cluster>, events: seq<Event>, i: nat, v: NodeId)
    requires IsRun(config, run, events) && i < |run| && v in run[i].nodes
    ensures v in run[i].disks && ValidNode(run[i].nodes[v])
    ensures var n, d := run[i].nodes[v], run[i].disks[v];
            var loaded := NewNode(v, n.peers, d);
            && loaded.Some?
            && ValidNode(loaded.value)
            && loaded.value.currentTerm == n.currentTerm
            && loaded.value.votedFor == n.votedFor
            && Boundary(loaded.value.log) == SnapshotIndex(d)
            && LastIndex(loaded.value.log) == C.Max(LastIndex(n.log), SnapshotIndex(d))
            && forall x: nat :: x > SnapshotIndex(d) ==> EntryAt(loaded.value.log, x) == EntryAt(n.log, x)
  {
    hide IsRun, Rel, P.Grows, C.Inv, Represents, Traced, NewNode;
    var hs := RunTraced(config, run, events);
    TracedAt(run, hs, i);
    RelatedNode(run[i], hs[i], v);
    LoadedLogs(run[i].nodes[v], run[i].disks[v], hs[i], v);
  }

  lemma TracedAt(run: seq<Cluster>, hs: seq<C.State>, i: nat)
    requires Traced(run, hs) && i < |run|
    ensures |hs| == |run| && Rel(run[i], hs[i])
  {
    hide Rel, P.Grows;
  }

  lemma LoadedLogs(n: Node, d: Disk, h: C.State, v: NodeId)
    requires Tied(n, d, h, v)
    requires C.Inv(h)
    ensures NewNode(v, n.peers, d) == Some(Reloaded(n, d))
    ensures var loaded := Reloaded(n, d);
            && ValidNode(loaded)
            && loaded.currentTerm == n.currentTerm
            && loaded.votedFor == n.votedFor
            && Boundary(loaded.log) == SnapshotIndex(d)
            && LastIndex(loaded.log) == C.Max(LastIndex(n.log), SnapshotIndex(d))
            && forall x: nat :: x > SnapshotIndex(d) ==> EntryAt(loaded.log, x) == EntryAt(n.log, x)
  {
    hide C.Inv, C.Witnessed, NewNode, LoadedLog, Numbered, Tied, SnapshotRel, DiskRel, PeersOf, EntryAt;
    TiedSuffix(n, d, h, v);
    DiskBoundary(n, d);
    var s, b := h.servers[v], SnapshotIndex(d);
    LoadedSuffix(n, d, s.log);
    ReloadedDisk(n, d);
    forall x: nat | x > b
      ensures EntryAt(LoadedLog(d), x) == EntryAt(n.log, x)
    {
      SameAbove(n.log, LoadedLog(d), s.log, x);
    }
    ShownAbove(n.log, s.log, Boundary(n.log) + 1);
  }

  lemma DiskBoundary(n: Node, d: Disk)
    requires ValidNode(n) && DiskRel(n, d)
    ensures Boundary(n.log) <= SnapshotIndex(d)
  {
  }

  lemma SameAbove(l: Slice, l': Slice, full: seq<Entry>, x: nat)
    requires EndOf(l, full) && |l'| > 0 && l'[1..] == (if Boundary(l') <= |full| then full[Boundary(l')..] else [])
    requires x > Boundary(l') >= Boundary(l)
    ensures EntryAt(l', x) == EntryAt(l, x)
  {
    ShownAbove(l, full, x);
    if Boundary(l') <= |full| {
      ShownAbove(l', full, x);
    }
  }
}
