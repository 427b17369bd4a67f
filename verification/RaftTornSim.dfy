/** A node that lost the second save of an installation and then restarted has
    a log whose parts do not belong together: the snapshot's position, and
    entries above it that are left of a conflicting log. Everything that such a
    node does is still a step of the protocol, in which its server has the old
    log. It cannot lead, no leader's entries fit what is left, and the first
    entries or snapshot that it takes over replace all of it. */
module RaftTornSim {
  import opened Options
  import opened RaftTypes
  import opened RaftMessages
  import opened RaftLog
  import opened RaftHandlers
  import opened RaftCluster
  import opened RaftRefinement
  import opened RaftSimulation
  import opened RaftElectionSim
  import opened RaftReplicationSim
  import opened RaftSnapshotSim
  import C = Consensus
  import P = ConsensusProofs
  import S = ConsensusSteps
  import E = ConsensusElections
  import R = ConsensusReplication

  /** `h'` extends `h` at server `v` only, where the node is torn. */
  ghost predicate StaysTorn(h: C.State, h': C.State, v: NodeId, n: Node, d: Disk) {
    C.Inv(h') && P.Grows(h, h') && Elsewhere(h, h', v) && TornRel(n, d, h', v)
  }

  lemma TornWitness(l: Slice, h: C.State, s: C.Server)
    requires Torn(l, h, s)
    ensures C.Witnessed(h, Boundary(l), s.term) && Boundary(l) <= |h.chosen|
  {
  }

  /** The end of a torn log is the end of the server's. */
  lemma TornEnd(l: Slice, h: C.State, s: C.Server)
    requires Torn(l, h, s)
    ensures LastIndex(l) == |s.log| && LastTerm(l) == C.LastTerm(s.log)
  {
    hide C.Witnessed;
    var b := Boundary(l);
    assert |l[1..]| == |s.log| - b;
    assert l[|l| - 1] == l[1..][|l| - 2] == s.log[b..][|s.log| - b - 1];
  }

  /** A step that leaves the log alone leaves the node torn. */
  lemma TornMoves(n: Node, d: Disk, h: C.State, h': C.State, v: NodeId, n': Node, d': Disk)
    requires TornRel(n, d, h, v) && P.Grows(h, h') && Elsewhere(h, h', v)
    requires n' == n.(currentTerm := n'.currentTerm, votedFor := n'.votedFor, role := n'.role, leaderId := n'.leaderId,
                      votesReceived := n'.votesReceived, commitIndex := n'.commitIndex, lastApplied := n'.lastApplied,
                      chunkTransfer := n'.chunkTransfer, pendingSnapshot := n'.pendingSnapshot)
    requires var s' := h'.servers[v];
             && s'.log == h.servers[v].log && s'.term >= h.servers[v].term && s'.commit == h.servers[v].commit
             && n'.currentTerm == s'.term && n'.votedFor == s'.vote && n'.role == s'.role != Leader
             && (n'.role == Candidate ==> n'.votesReceived == s'.votes)
    requires n.commitIndex <= n'.commitIndex <= Boundary(n.log) && n'.lastApplied <= n'.commitIndex
    requires DiskRel(n', d') && d'.snapshot == d.snapshot
    ensures TornRel(n', d', h', v)
  {
    hide P.Grows, SnapshotRel, DiskRel, Torn, PeersOf;
    TornForward(n.log, h, h', h.servers[v], h'.servers[v]);
    if d.snapshot.Some? {
      SnapshotLater(h, h', h.servers[v], h'.servers[v], d.snapshot.value);
    }
  }

  lemma TornSaved(n: Node, d: Disk, h: C.State, v: NodeId, n': Node)
    requires TornRel(n, d, h, v) && n'.log == n.log
    requires C.Inv(h)
    ensures DiskRel(n', Saved(n', d))
  {
    hide C.Inv, C.Witnessed, SnapshotRel;
    GroundedNumbered(h, v);
    SuffixSaved(n', d, h.servers[v].log);
  }

  /** Only the term and what it decides has changed on the disk. */
  lemma TornDisk(n: Node, d: Disk, n': Node)
    requires ValidNode(n) && DiskRel(n, d) && n'.log == n.log && n'.currentTerm == n.currentTerm
    requires n'.votedFor == n.votedFor
    ensures DiskRel(n', d)
  {
  }

  // ---------------------------------------------------------------- elections

  lemma TornStepDown(n: Node, d: Disk, h: C.State, v: NodeId, term: nat, save: bool) returns (h': C.State)
    requires TornRel(n, d, h, v) && term > n.currentTerm
    requires C.Inv(h)
    ensures var (n', d') := BecomeFollower(n, d, term, save); StaysTorn(h, h', v, n', d')
  {
    hide C.Inv, P.Grows, P.Extends, DiskRel, Torn, SnapshotRel, PeersOf;
    h' := h;
    if save {
      h' := C.BumpTerm(h, v, term);
      S.BumpTermKeeps(h, v, term);
      P.ExtendsGrows(h, h');
      TornSaved(n, d, h, v, SteppedDown(n, term));
      TornMoves(n, d, h, h', v, SteppedDown(n, term), Saved(SteppedDown(n, term), d));
    } else {
      ItselfGrows(h);
    }
  }

  lemma ItselfGrows(h: C.State)
    ensures P.Grows(h, h)
  {
  }

  lemma TornRecognize(n: Node, d: Disk, h: C.State, v: NodeId, term: nat, save: bool) returns (h': C.State)
    requires TornRel(n, d, h, v)
    requires C.Inv(h)
    ensures var (n', d', _) := Recognize(n, d, term, save);
            StaysTorn(h, h', v, n', d') && n'.log == n.log && n'.chunkTransfer == n.chunkTransfer
  {
    hide C.Inv, P.Grows, DiskRel, Torn, SnapshotRel, PeersOf;
    if term > n.currentTerm {
      h' := TornStepDown(n, d, h, v, term, save);
    } else {
      h' := h;
      ItselfGrows(h);
    }
  }

  lemma TornChain(h: C.State, h1: C.State, h2: C.State, v: NodeId, n: Node, d: Disk)
    requires P.Grows(h, h1) && Elsewhere(h, h1, v) && Trails(h1, h2, v, n, d)
    ensures Trails(h, h2, v, n, d)
  {
    hide C.Inv, Tied;
    P.GrowsTransitive(h, h1, h2);
  }

  /** A winner's log has all that was chosen before: a torn one has not. */
  lemma TornCannotWin(n: Node, d: Disk, h: C.State, v: NodeId)
    requires TornRel(n, d, h, v)
    requires C.Inv(h)
    ensures !C.MayWin(h, v)
  {
    hide C.Inv, P.Grows, P.Extends, C.Witnessed, DiskRel, SnapshotRel, PeersOf, C.ReignsKeep;
    if C.MayWin(h, v) {
      var s, h' := h.servers[v], C.Win(h, v);
      E.WinKeeps(h, v);
      P.ExtendsGrows(h, h');
      TornForward(n.log, h, h', s, h'.servers[v]);
      InvReigns(h');
      P.WitnessedWithin(h', Boundary(n.log), s.term, s.term);
      assert false;
    }
  }

  lemma TornNoQuorum(n: Node, d: Disk, h: C.State, v: NodeId)
    requires TornRel(n, d, h, v) && n.role == Candidate
    requires C.Inv(h)
    ensures |n.votesReceived| < Quorum(n)
  {
    hide C.Inv, Torn, DiskRel, SnapshotRel;
    TornCannotWin(n, d, h, v);
    CandidateBallot(h, v);
  }

  lemma TornStand(n: Node, d: Disk, h: C.State, v: NodeId) returns (h': C.State)
    requires TornRel(n, d, h, v)
    requires C.Inv(h)
    ensures StaysTorn(h, h', v, Standing(n), Saved(Standing(n), d))
  {
    hide C.Inv, P.Grows, P.Extends, DiskRel, Torn, SnapshotRel, PeersOf;
    h' := C.StartElection(h, v);
    E.StartElectionKeeps(h, v);
    P.ExtendsGrows(h, h');
    TornSaved(n, d, h, v, Standing(n));
    TornMoves(n, d, h, h', v, Standing(n), Saved(Standing(n), d));
  }

  lemma TornVoteCalls(n: Node, d: Disk, h: C.State, v: NodeId)
    requires TornRel(n, d, h, v) && n.role == Candidate
    requires C.Inv(h)
    ensures Justified(h, v, set p | p in n.peers :: VoteCall(n, p))
  {
    hide C.Inv, Torn, DiskRel, SnapshotRel;
    TornEnd(n.log, h, h.servers[v]);
    CandidateBallot(h, v);
  }

  lemma TornElection(n: Node, d: Disk, h: C.State, v: NodeId, config: Config, save: bool) returns (h': C.State)
    requires TornRel(n, d, h, v)
    requires C.Inv(h)
    ensures var out := StartElection(n, d, config, save);
            StaysTorn(h, h', v, out.node, out.disk) && Justified(h', v, out.sent)
  {
    hide C.Inv, P.Grows, TornRel, BecomeLeader;
    h' := h;
    ItselfGrows(h);
    TornValid(n, d, h, v);
    if save {
      h' := TornStand(n, d, h, v);
      TornNoQuorum(Standing(n), Saved(Standing(n), d), h', v);
      TornVoteCalls(Standing(n), Saved(Standing(n), d), h', v);
    }
  }

  lemma TornValid(n: Node, d: Disk, h: C.State, v: NodeId)
    requires TornRel(n, d, h, v)
    ensures ValidNode(n) && v in h.servers && n.role != Leader && n.currentTerm == h.servers[v].term
    ensures n.commitIndex <= Boundary(n.log) && n.lastApplied <= n.commitIndex
  {
  }

  lemma TornVoteReply(n: Node, d: Disk, h: C.State, v: NodeId, config: Config, peer: NodeId,
                      args: RequestVoteArgs, reply: RequestVoteReply, save: bool) returns (h': C.State)
    requires TornRel(n, d, h, v) && VoteReplyRel(h, peer, v, args, reply)
    requires C.Inv(h)
    ensures var out := OnVoteReply(n, d, config, peer, args, reply, save);
            StaysTorn(h, h', v, out.node, out.disk) && Justified(h', v, out.sent)
  {
    hide C.Inv, P.Grows, P.Extends, Torn, DiskRel, SnapshotRel, PeersOf, BecomeLeader;
    if reply.term > n.currentTerm {
      h' := TornStepDown(n, d, h, v, reply.term, save);
    } else if n.role != Candidate || n.currentTerm != args.term || !reply.granted {
      h' := h;
      ItselfGrows(h);
    } else {
      var counted := n.(votesReceived := n.votesReceived + {peer});
      h' := C.CollectVote(h, v, peer);
      S.CollectVoteKeeps(h, v, peer);
      P.ExtendsGrows(h, h');
      TornDisk(n, d, counted);
      TornMoves(n, d, h, h', v, counted, d);
      TornNoQuorum(counted, d, h', v);
    }
  }

  lemma TornGrant(n: Node, d: Disk, h: C.State, v: NodeId, src: NodeId, args: RequestVoteArgs) returns (h': C.State)
    requires TornRel(n, d, h, v) && VoteRequestRel(h, src, args) && src != NOBODY
    requires n.currentTerm == args.term && (n.votedFor == NOBODY || n.votedFor == args.candidate)
    requires LogIsUpToDate(args.lastIndex, args.lastTerm, LastIndex(n.log), LastTerm(n.log))
    requires C.Inv(h)
    ensures var n' := n.(votedFor := args.candidate); StaysTorn(h, h', v, n', Saved(n', d))
    ensures VoteReplyRel(h', v, src, args, RequestVoteReply(args.term, true))
  {
    hide C.Inv, P.Grows, P.Extends, Torn, DiskRel, SnapshotRel, PeersOf;
    var n' := n.(votedFor := args.candidate);
    TornEnd(n.log, h, h.servers[v]);
    TornSaved(n, d, h, v, n');
    if n.votedFor == NOBODY {
      h' := C.CastVote(h, v, src);
      E.CastVoteKeeps(h, v, src);
      P.ExtendsGrows(h, h');
    } else {
      h' := h;
      ItselfGrows(h);
      VoteRecorded(h, v);
    }
    TornMoves(n, d, h, h', v, n', Saved(n', d));
  }

  lemma TornVoteRequest(n: Node, d: Disk, h: C.State, v: NodeId, src: NodeId, args: RequestVoteArgs,
                        saveTerm: bool, saveVote: bool) returns (h': C.State)
    requires TornRel(n, d, h, v) && VoteRequestRel(h, src, args) && src != NOBODY
    requires C.Inv(h)
    ensures var (n', d', reply) := HandleRequestVote(n, d, args, saveTerm, saveVote);
            StaysTorn(h, h', v, n', d') && VoteReplyRel(h', v, src, args, reply)
  {
    hide C.Inv, TornRel, LogIsUpToDate;
    TornValid(n, d, h, v);
    var (n1, d1, current) := Recognize(n, d, args.term, saveTerm);
    var h1 := TornRecognize(n, d, h, v, args.term, saveTerm);
    var (n', d', reply) := HandleRequestVote(n, d, args, saveTerm, saveVote);
    if reply.granted {
      h' := TornGrant(n1, d1, h1, v, src, args);
      P.GrowsTransitive(h, h1, h');
    } else {
      h' := h1;
    }
  }

  // -------------------------------------------------------------- replication

  /** A torn node that recognizes its leader and may learn what is chosen, as
      far as its snapshot reaches. */
  lemma TornYield(n: Node, d: Disk, h: C.State, v: NodeId, n': Node) returns (h': C.State)
    requires TornRel(n, d, h, v) && n.currentTerm in h.reigns && h.reigns[n.currentTerm].leader != v
    requires n' == n.(role := Follower, leaderId := n'.leaderId, chunkTransfer := n'.chunkTransfer,
                      commitIndex := n'.commitIndex)
    requires n.commitIndex <= n'.commitIndex <= Boundary(n.log)
    requires C.Inv(h)
    ensures StaysTorn(h, h', v, n', d)
  {
    hide C.Inv, P.Grows, P.Extends, Torn, DiskRel, SnapshotRel, PeersOf;
    h' := C.Sync(h, v, 0);
    R.SyncKeeps(h, v, 0);
    P.ExtendsGrows(h, h');
    TornDisk(n, d, n');
    TornMoves(n, d, h, h', v, n', d);
  }

  /** What a leader sends fits a torn log only at the boundary, and nothing
      that follows there is what the leader has. */
  lemma TornFits(l: Slice, h: C.State, v: NodeId, args: AppendEntriesArgs, src: NodeId)
    requires v in h.servers && Torn(l, h, h.servers[v]) && AppendRel(h, src, args) && h.servers[v].term <= args.term
    requires TermAt(l, args.prevIndex) == Some(args.prevTerm)
    requires C.Inv(h)
    ensures args.prevIndex == Boundary(l)
    ensures args.entries != [] ==> |l| > 1 && l[1].term != args.entries[0].term
    ensures C.Witnessed(h, args.prevIndex, args.term)
  {
    hide C.Inv, C.Witnessed, C.ReignsKeep, C.Grounded;
    var s, b, leader := h.servers[v], Boundary(l), h.reigns[args.term].log;
    TornWitness(l, h, s);
    InvGrounded(h, v, args.term);
    P.WitnessedWithin(h, b, s.term, args.term);
    ItselfGrows(h);
    P.WitnessedForward(h, h, b, s.term, args.term);
    if args.prevIndex > b {
      TornAbove(l, h, s, leader, args.prevIndex);
    } else if args.entries != [] {
      TornAbove(l, h, s, leader, b + 1);
      assert args.entries[0] == leader[b] && l[1] == l[b + 1 - b];
    }
  }

  lemma SharedTerm(reigns: map<nat, C.Reign>, a: C.Log, b: C.Log, prefix: C.Log, x: nat)
    requires C.Grounded(reigns, a) && C.Grounded(reigns, b) && prefix <= b && |prefix| < x <= |a| && x <= |b|
    ensures a[x - 1].term == b[x - 1].term ==> prefix <= a
  {
    if a[x - 1].term == b[x - 1].term {
      P.GroundedMatch(reigns, a, b, x - 1);
      assert prefix == b[..x][..|prefix|] == a[..x][..|prefix|];
    }
  }

  lemma TornAbove(l: Slice, h: C.State, s: C.Server, leader: C.Log, x: nat)
    requires Torn(l, h, s) && C.Grounded(h.reigns, s.log) && C.Grounded(h.reigns, leader)
    requires Boundary(l) < x <= |leader| && Boundary(l) <= |h.chosen| && h.chosen[..Boundary(l)] <= leader
    ensures x <= |s.log| ==> TermAt(l, x) == Some(s.log[x - 1].term)
    ensures TermAt(l, x) != Some(leader[x - 1].term)
  {
    hide C.Witnessed;
    var b := Boundary(l);
    TornWitness(l, h, s);
    if x <= |s.log| {
      assert l[x - b] == l[1..][x - b - 1] == s.log[b..][x - b - 1];
      SharedTerm(h.reigns, s.log, leader, h.chosen[..b], x);
    } else {
      assert |l[1..]| == |s.log| - b;
    }
  }

  // -------------------------------------------------------------- mending

  /** The node without what is left above its snapshot. */
  function Mended(n: Node): Node
    requires ValidNode(n)
  {
    n.(role := Follower, log := [n.log[0]])
  }

  /** The server takes over the chosen prefix, and learns as much of it as the
      node knows. */
  lemma MendFollows(n: Node, d: Disk, h: C.State, v: NodeId) returns (h': C.State)
    requires TornRel(n, d, h, v) && n.currentTerm in h.reigns && h.reigns[n.currentTerm].leader != v
    requires C.Inv(h)
    ensures Follows(h, h', v, Mended(n), Saved(Mended(n), d))
  {
    hide C.Inv, P.Grows, P.Extends, C.Witnessed, SnapshotRel, DiskRel, C.Adopt, C.Learn, C.Sync, PeersOf;
    var s, b, c := h.servers[v], Boundary(n.log), n.commitIndex;
    TornWitness(n.log, h, s);
    var h1 := C.Sync(h, v, 0);
    R.SyncKeeps(h, v, 0);
    P.ExtendsGrows(h, h1);
    MendServer(h, v, b, c);
    P.WitnessedForward(h, h1, b, s.term, s.term);
    var h2 := C.Adopt(h1, v, b);
    R.AdoptKeeps(h1, v, b);
    P.ExtendsGrows(h1, h2);
    P.WitnessedForward(h1, h2, b, s.term, s.term);
    P.WitnessedShorter(h2, b, c, s.term);
    h' := C.Learn(h2, v, c);
    S.LearnKeeps(h2, v, c);
    P.ExtendsGrows(h2, h');
    P.GrowsTransitive(h, h1, h2);
    P.GrowsTransitive(h, h2, h');
    GroundedNumbered(h', v);
    MendedRel(n, d, h, h', v);
  }

  lemma MendServer(h: C.State, v: NodeId, b: nat, c: nat)
    requires v in h.servers && C.MaySync(h, v, 0) && b <= |h.chosen| && c <= b && !(h.chosen[..b] <= h.servers[v].log)
    ensures var s, h1 := h.servers[v], C.Sync(h, v, 0);
            && Elsewhere(h, h1, v) && h1.servers[v].role == Follower && h1.servers[v].term == s.term
               && h1.chosen == h.chosen
            && var h2 := C.Adopt(h1, v, b);
               && Elsewhere(h, h2, v) && h2.servers[v].term == s.term && h2.servers[v].log == h.chosen[..b]
                  && h2.chosen == h.chosen
               && h2.chosen[..c] <= h2.servers[v].log
               && var h3 := C.Learn(h2, v, c);
                  && Elsewhere(h, h3, v) && h3.chosen == h.chosen
                  && h3.servers[v] == s.(role := Follower, log := h.chosen[..b], commit := C.Max(s.commit, c),
                                         settled := C.Max(C.Max(s.settled, b), c))
  {
  }

  lemma MendedRel(n: Node, d: Disk, h: C.State, h': C.State, v: NodeId)
    requires TornRel(n, d, h, v) && Elsewhere(h, h', v) && P.Grows(h, h')
    requires var s, b, c := h.servers[v], Boundary(n.log), n.commitIndex;
             b <= |h.chosen|
             && h'.servers[v]
                == s.(role := Follower, log := h.chosen[..b], commit := C.Max(s.commit, c),
                      settled := C.Max(C.Max(s.settled, b), c))
    requires Numbered(h'.servers[v].log)
    ensures NodeRel(Mended(n), Saved(Mended(n), d), h', v)
  {
    hide P.Grows, C.Witnessed, SnapshotRel, Above, PeersOf;
    TornWitness(n.log, h, h.servers[v]);
    var full := h'.servers[v].log;
    assert full[Boundary(n.log)..] == [] && [n.log[0]][1..] == [];
    assert Represents(Mended(n).log, full);
    SavedRel(Mended(n), d, full);
    if d.snapshot.Some? {
      SnapshotLater(h, h', h.servers[v], h'.servers[v], d.snapshot.value);
    }
  }

  lemma MatchesNothing(l: Slice, entries: seq<Entry>)
    requires |l| > 1 && entries != [] && l[1].term != entries[0].term
    ensures Matching(l, Boundary(l), entries) == 0
  {
    assert l[1..][0] == l[1];
  }

  lemma MendedAppends(n: Node, d: Disk, args: AppendEntriesArgs, saveTerm: bool)
    requires ValidNode(n) && n.currentTerm == args.term && args.prevIndex == Boundary(n.log)
    requires TermAt(n.log, args.prevIndex) == Some(args.prevTerm)
    requires args.entries != [] && |n.log| > 1 && n.log[1].term != args.entries[0].term
    ensures HandleAppendEntries(Mended(n), Saved(Mended(n), d), args, saveTerm, true)
            == HandleAppendEntries(n, d, args, saveTerm, true)
  {
    hide Renumbered;
    var m, b := Mended(n), Boundary(n.log);
    MatchesNothing(n.log, args.entries);
    assert n.log[..1] == m.log[..1];
    assert AppendAfter(m.log, b, args.entries) == AppendAfter(n.log, b, args.entries);
  }

  lemma TornAppend(n: Node, d: Disk, h: C.State, v: NodeId, src: NodeId, args: AppendEntriesArgs,
                   saveTerm: bool, saveLog: bool) returns (h': C.State)
    requires TornRel(n, d, h, v) && AppendRel(h, src, args) && src != v
    requires C.Inv(h)
    ensures var (n', d', reply) := HandleAppendEntries(n, d, args, saveTerm, saveLog);
            && Trails(h, h', v, n', d')
            && (reply.success ==> Confirms(h', v, args.term, args.prevIndex + |args.entries|))
            && reply.term == n'.currentTerm
  {
    hide C.Inv, P.Grows, TornRel, NodeRel, AppendRel, AppendAfter, Matching, Confirms;
    TornValid(n, d, h, v);
    var (n1, d1, current) := Recognize(n, d, args.term, saveTerm);
    var h1 := TornRecognize(n, d, h, v, args.term, saveTerm);
    AppendForward(h, h1, src, args);
    var (n', d', reply) := HandleAppendEntries(n, d, args, saveTerm, saveLog);
    if !current {
      h' := h1;
    } else {
      h' := TornAppendNow(n1, d1, h1, v, src, args, saveTerm, saveLog);
      TornChain(h, h1, h', v, n', d');
    }
  }

  lemma AppendReigns(h: C.State, src: NodeId, args: AppendEntriesArgs)
    requires AppendRel(h, src, args)
    ensures args.term in h.reigns && h.reigns[args.term].leader == src
  {
  }

  lemma TornAppendNow(n: Node, d: Disk, h: C.State, v: NodeId, src: NodeId, args: AppendEntriesArgs,
                      saveTerm: bool, saveLog: bool) returns (h': C.State)
    requires TornRel(n, d, h, v) && AppendRel(h, src, args) && src != v && n.currentTerm == args.term
    requires C.Inv(h)
    ensures var (n', d', reply) := HandleAppendEntries(n, d, args, saveTerm, saveLog);
            && Trails(h, h', v, n', d')
            && (reply.success ==> Confirms(h', v, args.term, args.prevIndex + |args.entries|))
            && reply.term == n'.currentTerm
  {
    hide C.Inv, P.Grows, TornRel, NodeRel, AppendRel, C.Witnessed, Renumbered, CommonTerms;
    TornValid(n, d, h, v);
    AppendReigns(h, src, args);
    var (n', d', reply) := HandleAppendEntries(n, d, args, saveTerm, saveLog);
    if !reply.success {
      h' := TornYield(n, d, h, v, n');
    } else {
      TornLog(n, d, h, v);
      TornFits(n.log, h, v, args, src);
      if args.entries == [] {
        h' := TornYield(n, d, h, v, n');
        P.WitnessedForward(h, h', args.prevIndex, args.term, args.term);
      } else {
        MatchesNothing(n.log, args.entries);
        h' := TornReplaced(n, d, h, v, src, args, saveTerm);
      }
    }
  }

  lemma TornLog(n: Node, d: Disk, h: C.State, v: NodeId)
    requires TornRel(n, d, h, v)
    ensures v in h.servers && Torn(n.log, h, h.servers[v])
  {
  }

  lemma TornReplaced(n: Node, d: Disk, h: C.State, v: NodeId, src: NodeId, args: AppendEntriesArgs, saveTerm: bool)
      returns (h': C.State)
    requires TornRel(n, d, h, v) && AppendRel(h, src, args) && src != v && n.currentTerm == args.term
    requires ValidNode(n) && args.prevIndex == Boundary(n.log) && TermAt(n.log, args.prevIndex) == Some(args.prevTerm)
    requires args.entries != [] && |n.log| > 1 && n.log[1].term != args.entries[0].term
    requires C.Inv(h)
    ensures var (n', d', reply) := HandleAppendEntries(n, d, args, saveTerm, true);
            && Trails(h, h', v, n', d')
            && (reply.success ==> Confirms(h', v, args.term, args.prevIndex + |args.entries|))
  {
    hide C.Inv, P.Grows, TornRel, NodeRel, AppendRel, Confirms, HandleAppendEntries;
    AppendReigns(h, src, args);
    var h1 := MendFollows(n, d, h, v);
    AppendForward(h, h1, src, args);
    MendedAppends(n, d, args, saveTerm);
    h' := AppendFollows(Mended(n), Saved(Mended(n), d), h1, v, src, args, saveTerm, true);
    P.GrowsTransitive(h, h1, h');
  }

  // ---------------------------------------------------------------- snapshots

  lemma MendedInstalls(n: Node, d: Disk, leader: NodeId, snapshot: Snapshot)
    requires ValidNode(n) && Boundary(n.log) < snapshot.index && TermAt(n.log, snapshot.index) != Some(snapshot.term)
    ensures var n2 := Mended(n).(leaderId := leader, chunkTransfer := None);
            Install(n2, Saved(Mended(n), d), snapshot, true, true)
            == Install(n.(role := Follower, leaderId := leader, chunkTransfer := None), d, snapshot, true, true)
  {
    assert TermAt(Mended(n).log, snapshot.index) == None;
  }

  lemma TornInstall(n: Node, d: Disk, h: C.State, v: NodeId, src: NodeId, args: InstallSnapshotArgs, snapshot: Snapshot,
                    saveSnapshot: bool, saveState: bool) returns (h': C.State)
    requires TornRel(n, d, h, v) && InstallRel(h, src, args, snapshot) && src != v && n.currentTerm == args.term
    requires ValidNode(n) && Boundary(n.log) < args.lastIndex
    requires C.Inv(h)
    ensures var (n', d', _) := Install(n.(role := Follower, leaderId := src, chunkTransfer := None), d, snapshot,
                                       saveSnapshot, saveState);
            Trails(h, h', v, n', d')
  {
    hide C.Inv, P.Grows, TornRel, NodeRel, C.Witnessed, WithBoundary, Mended;
    var n2 := n.(role := Follower, leaderId := src, chunkTransfer := None);
    if saveSnapshot && saveState {
      h' := TornInstalled(n, d, h, v, src, args, snapshot);
    } else {
      var d' := if saveSnapshot then SavedSnapshot(d, snapshot) else d;
      if saveSnapshot {
        TornHalfInstalled(n, d, h, v, src, args, snapshot);
      }
      TornValid(n, d, h, v);
      h' := TornYield(n, d', h, v, n2);
    }
  }

  lemma TornHalfInstalled(n: Node, d: Disk, h: C.State, v: NodeId, src: NodeId, args: InstallSnapshotArgs,
                          snapshot: Snapshot)
    requires TornRel(n, d, h, v) && InstallRel(h, src, args, snapshot) && n.currentTerm == args.term
    requires ValidNode(n) && Boundary(n.log) < args.lastIndex
    requires C.Inv(h)
    ensures TornRel(n, SavedSnapshot(d, snapshot), h, v)
  {
    hide C.Inv, Torn, C.Witnessed, PeersOf;
    InstallFacts(h, src, args, snapshot);
  }

  lemma TornInstalled(n: Node, d: Disk, h: C.State, v: NodeId, src: NodeId, args: InstallSnapshotArgs,
                      snapshot: Snapshot)
    returns (h': C.State)
    requires TornRel(n, d, h, v) && InstallRel(h, src, args, snapshot) && src != v && n.currentTerm == args.term
    requires ValidNode(n) && Boundary(n.log) < args.lastIndex
    requires C.Inv(h)
    ensures var (n', d', _) := Install(n.(role := Follower, leaderId := src, chunkTransfer := None), d, snapshot, true,
                                       true);
            Trails(h, h', v, n', d')
  {
    hide C.Inv, P.Grows, TornRel, NodeRel, C.Witnessed, Install, C.ReignsKeep, C.Grounded;
    TornLog(n, d, h, v);
    TornValid(n, d, h, v);
    InvGrounded(h, v, args.term);
    var leader := h.reigns[args.term].log;
    TornWitness(n.log, h, h.servers[v]);
    P.WitnessedWithin(h, Boundary(n.log), h.servers[v].term, args.term);
    TornAbove(n.log, h, h.servers[v], leader, args.lastIndex);
    MendedInstalls(n, d, src, snapshot);
    var h1 := MendFollows(n, d, h, v);
    InstallForward(h, h1, src, args, snapshot);
    var n2 := Mended(n).(leaderId := src, chunkTransfer := None);
    h' := InstallFollows(Mended(n), Saved(Mended(n), d), h1, v, src, args, snapshot, n2, true, true);
    P.GrowsTransitive(h, h1, h');
  }

  lemma TornInstallSnapshot(n: Node, d: Disk, h: C.State, v: NodeId, config: Config, src: NodeId,
                            args: InstallSnapshotArgs, snapshot: Snapshot,
                            saveTerm: bool, saveSnapshot: bool, saveState: bool)
      returns (h': C.State)
    requires TornRel(n, d, h, v) && InstallRel(h, src, args, snapshot) && src != v
    requires C.Inv(h)
    ensures var (n', d', _) := HandleInstallSnapshot(n, d, config, args, saveTerm, saveSnapshot, saveState);
            Trails(h, h', v, n', d')
  {
    hide C.Inv, P.Grows, TornRel, NodeRel, Install, C.Witnessed;
    TornValid(n, d, h, v);
    var (n1, d1, current) := Recognize(n, d, args.term, saveTerm);
    var h1 := TornRecognize(n, d, h, v, args.term, saveTerm);
    var (n', d', reply) := HandleInstallSnapshot(n, d, config, args, saveTerm, saveSnapshot, saveState);
    InstallForward(h, h1, src, args, snapshot);
    TornValid(n1, d1, h1, v);
    if !current {
      h' := h1;
    } else {
      var (transfer, accepted, payload) := ReceiveChunk(n1.chunkTransfer, config, args);
      if args.lastIndex <= Boundary(n1.log) || !accepted || payload.None? {
        h' := TornYield(n1, d1, h1, v, n');
      } else {
        var sent := Snapshot(args.lastIndex, args.lastTerm, payload.value);
        h' := TornInstall(n1, d1, h1, v, src, args, sent, saveSnapshot, saveState);
      }
      TornChain(h, h1, h', v, n', d');
    }
  }

  /** Everything that only a leader does, or that needs committed entries in
      the log, does nothing here. */
  lemma TornProgress(n: Node, d: Disk, h: C.State, v: NodeId, n': Node)
    requires TornRel(n, d, h, v)
    requires n' == n.(lastApplied := n'.lastApplied, pendingSnapshot := n'.pendingSnapshot)
    requires n'.lastApplied <= n.commitIndex
    requires C.Inv(h)
    ensures StaysTorn(h, h, v, n', d)
  {
    hide C.Inv, P.Grows, Torn, DiskRel, SnapshotRel, PeersOf;
    ItselfGrows(h);
    TornDisk(n, d, n');
    TornMoves(n, d, h, h, v, n', d);
  }

  // ------------------------------------------------------- torn or not, either way

  lemma FollowsTrails(h: C.State, h': C.State, v: NodeId, n: Node, d: Disk)
    requires Follows(h, h', v, n, d) || StaysTorn(h, h', v, n, d)
    ensures Trails(h, h', v, n, d)
  {
  }

  lemma LeaderIsWhole(n: Node, d: Disk, h: C.State, v: NodeId)
    requires Tied(n, d, h, v)
    ensures ValidNode(n) && (n.role == Leader ==> NodeRel(n, d, h, v))
    ensures v in h.servers && n.lastApplied <= n.commitIndex
  {
  }

  lemma ElectionTrails(n: Node, d: Disk, h: C.State, v: NodeId, config: Config, save: bool) returns (h': C.State)
    requires Tied(n, d, h, v)
    requires C.Inv(h)
    ensures ValidNode(n)
    ensures var out := StartElection(n, d, config, save);
            Trails(h, h', v, out.node, out.disk) && Justified(h', v, out.sent)
  {
    hide NodeRel, TornRel, Follows, StaysTorn, Trails, Justified, StartElection;
    LeaderIsWhole(n, d, h, v);
    if NodeRel(n, d, h, v) {
      h' := StartElectionFollows(n, d, h, v, config, save);
    } else {
      h' := TornElection(n, d, h, v, config, save);
    }
    FollowsTrails(h, h', v, StartElection(n, d, config, save).node, StartElection(n, d, config, save).disk);
  }

  lemma VoteRequestTrails(n: Node, d: Disk, h: C.State, v: NodeId, src: NodeId, args: RequestVoteArgs,
                          saveTerm: bool, saveVote: bool) returns (h': C.State)
    requires Tied(n, d, h, v) && VoteRequestRel(h, src, args) && src != NOBODY
    requires C.Inv(h)
    ensures ValidNode(n)
    ensures var (n', d', reply) := HandleRequestVote(n, d, args, saveTerm, saveVote);
            Trails(h, h', v, n', d') && VoteReplyRel(h', v, src, args, reply)
  {
    hide NodeRel, TornRel, Follows, StaysTorn, Trails, HandleRequestVote;
    LeaderIsWhole(n, d, h, v);
    if NodeRel(n, d, h, v) {
      h' := VoteRequestFollows(n, d, h, v, src, args, saveTerm, saveVote);
    } else {
      h' := TornVoteRequest(n, d, h, v, src, args, saveTerm, saveVote);
    }
    var (n', d', _) := HandleRequestVote(n, d, args, saveTerm, saveVote);
    FollowsTrails(h, h', v, n', d');
  }

  lemma VoteReplyTrails(n: Node, d: Disk, h: C.State, v: NodeId, config: Config, peer: NodeId,
                        args: RequestVoteArgs, reply: RequestVoteReply, save: bool) returns (h': C.State)
    requires Tied(n, d, h, v) && VoteReplyRel(h, peer, v, args, reply)
    requires C.Inv(h)
    ensures ValidNode(n)
    ensures var out := OnVoteReply(n, d, config, peer, args, reply, save);
            Trails(h, h', v, out.node, out.disk) && Justified(h', v, out.sent)
  {
    hide NodeRel, TornRel, Follows, StaysTorn, Trails, Justified, OnVoteReply;
    LeaderIsWhole(n, d, h, v);
    if NodeRel(n, d, h, v) {
      h' := VoteReplyFollows(n, d, h, v, config, peer, args, reply, save);
    } else {
      h' := TornVoteReply(n, d, h, v, config, peer, args, reply, save);
    }
    var out := OnVoteReply(n, d, config, peer, args, reply, save);
    FollowsTrails(h, h', v, out.node, out.disk);
  }

  lemma AppendTrails(n: Node, d: Disk, h: C.State, v: NodeId, src: NodeId, args: AppendEntriesArgs,
                     saveTerm: bool, saveLog: bool) returns (h': C.State)
    requires Tied(n, d, h, v) && AppendRel(h, src, args) && src != v
    requires C.Inv(h)
    ensures ValidNode(n)
    ensures var (n', d', reply) := HandleAppendEntries(n, d, args, saveTerm, saveLog);
            Trails(h, h', v, n', d') && (reply.success ==> Confirms(h', v, args.term, args.prevIndex + |args.entries|))
  {
    hide NodeRel, TornRel, Follows, StaysTorn, Trails, HandleAppendEntries, Confirms;
    LeaderIsWhole(n, d, h, v);
    if NodeRel(n, d, h, v) {
      h' := AppendFollows(n, d, h, v, src, args, saveTerm, saveLog);
      var (n', d', _) := HandleAppendEntries(n, d, args, saveTerm, saveLog);
      FollowsTrails(h, h', v, n', d');
    } else {
      h' := TornAppend(n, d, h, v, src, args, saveTerm, saveLog);
    }
  }

  lemma AppendReplyTrails(n: Node, d: Disk, h: C.State, v: NodeId, peer: NodeId, args: AppendEntriesArgs,
                          reply: AppendEntriesReply, save: bool) returns (h': C.State)
    requires Tied(n, d, h, v) && AppendRel(h, v, args)
    requires reply.success ==> Confirms(h, peer, args.term, args.prevIndex + |args.entries|)
    requires C.Inv(h)
    ensures ValidNode(n)
    ensures var (n', d', _) := OnAppendReply(n, d, peer, args, reply, save); Trails(h, h', v, n', d')
  {
    hide NodeRel, TornRel, C.Inv, P.Grows, AppendRel, Confirms, AdvanceCommit;
    LeaderIsWhole(n, d, h, v);
    if NodeRel(n, d, h, v) {
      h' := AppendReplyFollows(n, d, h, v, peer, args, reply, save);
    } else {
      TornValid(n, d, h, v);
      h' := TornTold(n, d, h, v, reply.term, save);
    }
  }

  /** A reply tells a torn node at most of a later term. */
  lemma TornTold(n: Node, d: Disk, h: C.State, v: NodeId, term: nat, save: bool) returns (h': C.State)
    requires TornRel(n, d, h, v)
    requires C.Inv(h)
    ensures ValidNode(n)
    ensures var (n', d') := if term > n.currentTerm then BecomeFollower(n, d, term, save) else (n, d);
                            StaysTorn(h, h', v, n', d')
  {
    hide C.Inv, P.Grows, Torn, DiskRel, SnapshotRel, PeersOf;
    if term > n.currentTerm {
      h' := TornStepDown(n, d, h, v, term, save);
    } else {
      h' := h;
      ItselfGrows(h);
    }
  }

  lemma InstallTrails(n: Node, d: Disk, h: C.State, v: NodeId, config: Config, src: NodeId, args: InstallSnapshotArgs,
                      snapshot: Snapshot, saveTerm: bool, saveSnapshot: bool, saveState: bool) returns (h': C.State)
    requires Tied(n, d, h, v) && InstallRel(h, src, args, snapshot) && src != v
    requires C.Inv(h)
    ensures ValidNode(n)
    ensures var (n', d', _) := HandleInstallSnapshot(n, d, config, args, saveTerm, saveSnapshot, saveState);
            Trails(h, h', v, n', d')
  {
    hide NodeRel, TornRel, Follows, StaysTorn, Trails, HandleInstallSnapshot;
    LeaderIsWhole(n, d, h, v);
    if NodeRel(n, d, h, v) {
      h' := InstallSnapshotFollows(n, d, h, v, config, src, args, snapshot, saveTerm, saveSnapshot, saveState);
      var (n', d', _) := HandleInstallSnapshot(n, d, config, args, saveTerm, saveSnapshot, saveState);
      FollowsTrails(h, h', v, n', d');
    } else {
      h' := TornInstallSnapshot(n, d, h, v, config, src, args, snapshot, saveTerm, saveSnapshot, saveState);
    }
  }

  lemma SnapshotReplyTrails(n: Node, d: Disk, h: C.State, v: NodeId, config: Config, peer: NodeId,
                            args: InstallSnapshotArgs,
                            snapshot: Snapshot, reply: InstallSnapshotReply, save: bool) returns (h': C.State)
    requires Tied(n, d, h, v) && InstallRel(h, v, args, snapshot) && peer != v
    requires C.Inv(h)
    ensures ValidNode(n)
    ensures var out := OnSnapshotReply(n, d, config, peer, args, snapshot, reply, save);
            Trails(h, h', v, out.node, out.disk) && Justified(h', v, out.sent)
  {
    hide NodeRel, TornRel, C.Inv, P.Grows, InstallRel, AdvanceCommit, ChunkCall;
    LeaderIsWhole(n, d, h, v);
    if NodeRel(n, d, h, v) {
      h' := SnapshotReplyFollows(n, d, h, v, config, peer, args, snapshot, reply, save);
    } else {
      TornValid(n, d, h, v);
      h' := TornTold(n, d, h, v, reply.term, save);
    }
  }

  lemma ProposeTrails(n: Node, d: Disk, h: C.State, v: NodeId, config: Config, command: Bytes, save: bool)
      returns (h': C.State)
    requires Tied(n, d, h, v)
    requires C.Inv(h)
    ensures ValidNode(n)
    ensures var out := Propose(n, d, config, command, save);
            Trails(h, h', v, out.node, out.disk) && Justified(h', v, out.sent)
  {
    hide NodeRel, TornRel, C.Inv, P.Grows, Broadcast;
    LeaderIsWhole(n, d, h, v);
    if NodeRel(n, d, h, v) {
      h' := ProposeFollows(n, d, h, v, config, command, save);
    } else {
      TornValid(n, d, h, v);
      h' := h;
      ItselfGrows(h);
    }
  }

  lemma TakeSnapshotTrails(n: Node, d: Disk, h: C.State, v: NodeId, index: nat, data: Bytes,
                           saveSnapshot: bool, saveState: bool) returns (h': C.State)
    requires Tied(n, d, h, v)
    requires C.Inv(h)
    ensures ValidNode(n)
    ensures var (n', d') := CreateSnapshot(n, d, index, data, saveSnapshot, saveState); Trails(h, h', v, n', d')
  {
    hide NodeRel, TornRel, C.Inv, P.Grows, Compacted;
    LeaderIsWhole(n, d, h, v);
    if NodeRel(n, d, h, v) {
      h' := TakeSnapshotFollows(n, d, h, v, index, data, saveSnapshot, saveState);
    } else {
      TornValid(n, d, h, v);
      h' := h;
      ItselfGrows(h);
    }
  }

  lemma ProgressTrails(n: Node, d: Disk, h: C.State, v: NodeId, n': Node)
    requires Tied(n, d, h, v)
    requires n' == n.(lastApplied := n'.lastApplied, pendingSnapshot := n'.pendingSnapshot)
    requires n'.lastApplied <= n.commitIndex
    requires C.Inv(h)
    ensures Trails(h, h, v, n', d)
  {
    hide NodeRel, TornRel, Follows, StaysTorn, Trails;
    if NodeRel(n, d, h, v) {
      ProgressFollows(n, d, h, v, n');
    } else {
      TornProgress(n, d, h, v, n');
    }
    FollowsTrails(h, h, v, n', d);
  }
}
