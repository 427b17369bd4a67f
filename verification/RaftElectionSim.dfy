/** Elections, as the nodes run them, are elections of the uncompacted protocol. */
module RaftElectionSim {
  import opened RaftTypes
  import opened RaftMessages
  import opened RaftLog
  import opened RaftHandlers
  import opened RaftCluster
  import opened RaftRefinement
  import opened RaftSimulation
  import C = Consensus
  import P = ConsensusProofs
  import S = ConsensusSteps
  import E = ConsensusElections

  function Standing(n: Node): Node {
    n.(currentTerm := n.currentTerm + 1, votedFor := n.id, role := Candidate, votesReceived := {n.id})
  }

  lemma StandFollows(n: Node, d: Disk, h: C.State, v: NodeId) returns (h': C.State)
    requires C.Inv(h) && NodeRel(n, d, h, v)
    ensures h' == C.StartElection(h, v)
    ensures Follows(h, h', v, Standing(n), Saved(Standing(n), d))
  {
    hide C.Inv, P.Extends, P.Grows, SnapshotRel;
    GroundedNumbered(h, v);
    h' := C.StartElection(h, v);
    E.StartElectionKeeps(h, v);
    P.ExtendsGrows(h, h');
    SavedRel(Standing(n), d, h.servers[v].log);
    if d.snapshot.Some? {
      SnapshotLater(h, h', h.servers[v], h'.servers[v], d.snapshot.value);
    }
  }

  lemma VoteCallsJustified(n: Node, d: Disk, h: C.State, v: NodeId)
    requires C.Inv(h) && NodeRel(n, d, h, v) && n.role == Candidate
    ensures Justified(h, v, set p | p in n.peers :: VoteCall(n, p))
  {
    hide C.Inv, DiskRel, SnapshotRel;
    CompactionInvisible(n.log, h.servers[v].log);
    CandidateBallot(h, v);
  }

  lemma CandidateBallot(h: C.State, v: NodeId)
    requires C.Inv(h) && v in h.servers && h.servers[v].role == Candidate
    ensures (v, h.servers[v].term) in h.ballots
    ensures h.ballots[(v, h.servers[v].term)] == C.Ballot(v, h.servers[v].log)
    ensures h.servers[v].votes <= h.servers.Keys
  {
    assert C.CandidateValid(h, v);
  }

  lemma WinRel(n: Node, d: Disk, h: C.State, v: NodeId, n': Node)
    requires C.Inv(h) && NodeRel(n, d, h, v) && C.MayWin(h, v)
    requires P.Grows(h, C.Win(h, v))
    requires n' == n.(role := Leader, leaderId := n.id, votesReceived := {},
      nextIndex := Assigned(n.peers, LastIndex(n.log) + 1), matchIndex := Assigned(n.peers, 0))
    ensures NodeRel(n', d, C.Win(h, v), v) && Elsewhere(h, C.Win(h, v), v)
  {
    hide C.Inv, P.Grows, SnapshotRel, Above, Represents, PeersOf, C.MayWin;
    CompactionInvisible(n.log, h.servers[v].log);
    var h' := C.Win(h, v);
    assert h'.servers.Keys == h.servers.Keys;
    if d.snapshot.Some? {
      SnapshotLater(h, h', h.servers[v], h'.servers[v], d.snapshot.value);
    }
  }

  lemma BecomeLeaderFollows(n: Node, d: Disk, h: C.State, v: NodeId, config: Config) returns (h': C.State)
    requires C.Inv(h) && NodeRel(n, d, h, v) && n.role == Candidate && |n.votesReceived| >= Quorum(n)
    ensures Follows(h, h', v, BecomeLeader(n, d, config).node, d)
    ensures Justified(h', v, BecomeLeader(n, d, config).sent)
    ensures BecomeLeader(n, d, config).disk == d
  {
    hide C.Inv, DiskRel, SnapshotRel, LeaderRel, P.Grows, P.Extends, Justified;
    var leader := n.(role := Leader, leaderId := n.id, votesReceived := {},
      nextIndex := Assigned(n.peers, LastIndex(n.log) + 1), matchIndex := Assigned(n.peers, 0));
    CandidateBallot(h, v);
    var h1 := C.Win(h, v);
    E.WinKeeps(h, v);
    P.ExtendsGrows(h, h1);
    WinRel(n, d, h, v, leader);
    h' := BroadcastFollows(leader, d, h1, v, config);
    FollowsChain(h, h1, h', v, BecomeLeader(n, d, config).node, d);
  }

  lemma StartElectionFollows(n: Node, d: Disk, h: C.State, v: NodeId, config: Config, save: bool) returns (h': C.State)
    requires C.Inv(h) && NodeRel(n, d, h, v)
    ensures var out := StartElection(n, d, config, save);
            Follows(h, h', v, out.node, out.disk) && Justified(h', v, out.sent)
  {
    hide C.Inv, StateRel, DiskRel, SnapshotRel, LeaderRel, P.Grows, C.StartElection;
    var out := StartElection(n, d, config, save);
    if !save {
      h' := h;
      FollowsItself(n, d, h, v);
    } else {
      var h1 := StandFollows(n, d, h, v);
      var d1 := Saved(Standing(n), d);
      if |Standing(n).votesReceived| >= Quorum(n) {
        h' := BecomeLeaderFollows(Standing(n), d1, h1, v, config);
        FollowsChain(h, h1, h', v, out.node, out.disk);
      } else {
        h' := h1;
        VoteCallsJustified(Standing(n), d1, h1, v);
      }
    }
  }

  lemma CollectRel(n: Node, d: Disk, h: C.State, v: NodeId, p: NodeId)
    requires C.Inv(h) && NodeRel(n, d, h, v) && C.MayCollect(h, v, p) && P.Grows(h, C.CollectVote(h, v, p))
    ensures NodeRel(n.(votesReceived := n.votesReceived + {p}), d, C.CollectVote(h, v, p), v)
    ensures Elsewhere(h, C.CollectVote(h, v, p), v)
  {
    hide C.Inv, P.Grows, SnapshotRel, Above, Represents, PeersOf;
    var h' := C.CollectVote(h, v, p);
    assert h'.servers.Keys == h.servers.Keys;
    if d.snapshot.Some? {
      SnapshotLater(h, h', h.servers[v], h'.servers[v], d.snapshot.value);
    }
  }

  lemma VoteReplyFollows(n: Node, d: Disk, h: C.State, v: NodeId, config: Config, peer: NodeId,
                         args: RequestVoteArgs, reply: RequestVoteReply, save: bool) returns (h': C.State)
    requires C.Inv(h) && NodeRel(n, d, h, v) && VoteReplyRel(h, peer, v, args, reply)
    ensures var out := OnVoteReply(n, d, config, peer, args, reply, save);
            Follows(h, h', v, out.node, out.disk) && Justified(h', v, out.sent)
  {
    hide C.Inv, DiskRel, SnapshotRel, LeaderRel, P.Grows, P.Extends, C.CollectVote;
    var out := OnVoteReply(n, d, config, peer, args, reply, save);
    if reply.term > n.currentTerm {
      h' := BecomeFollowerFollows(n, d, h, v, reply.term, save);
    } else if n.role != Candidate || n.currentTerm != args.term || !reply.granted {
      h' := h;
      FollowsItself(n, d, h, v);
    } else {
      var counted := n.(votesReceived := n.votesReceived + {peer});
      var h1 := C.CollectVote(h, v, peer);
      S.CollectVoteKeeps(h, v, peer);
      P.ExtendsGrows(h, h1);
      CollectRel(n, d, h, v, peer);
      if |counted.votesReceived| >= Quorum(n) {
        h' := BecomeLeaderFollows(counted, d, h1, v, config);
        FollowsChain(h, h1, h', v, out.node, out.disk);
      } else {
        h' := h1;
      }
    }
  }

  lemma CastRel(n: Node, d: Disk, h: C.State, v: NodeId, c: NodeId)
    requires C.Inv(h) && NodeRel(n, d, h, v) && C.MayVote(h, v, c) && P.Grows(h, C.CastVote(h, v, c))
    ensures NodeRel(n.(votedFor := c), Saved(n.(votedFor := c), d), C.CastVote(h, v, c), v)
    ensures Elsewhere(h, C.CastVote(h, v, c), v)
  {
    hide C.Inv, P.Grows, SnapshotRel, Represents, PeersOf;
    GroundedNumbered(h, v);
    var h' := C.CastVote(h, v, c);
    assert h'.servers.Keys == h.servers.Keys;
    SavedRel(n.(votedFor := c), d, h.servers[v].log);
    LeaderForward(n, h, h', v);
    if d.snapshot.Some? {
      SnapshotLater(h, h', h.servers[v], h'.servers[v], d.snapshot.value);
    }
  }

  /** Voting again for the same candidate saves the same state again. */
  lemma ResavedRel(n: Node, d: Disk, h: C.State, v: NodeId)
    requires C.Inv(h) && NodeRel(n, d, h, v)
    ensures NodeRel(n, Saved(n, d), h, v)
  {
    hide C.Inv, SnapshotRel;
    GroundedNumbered(h, v);
    SavedRel(n, d, h.servers[v].log);
  }

  lemma VoteRecorded(h: C.State, v: NodeId)
    requires C.Inv(h) && v in h.servers && h.servers[v].vote != NOBODY
    ensures (v, h.servers[v].term) in h.ballots
    ensures h.ballots[(v, h.servers[v].term)].candidate == h.servers[v].vote
  {
  }

  lemma GrantFollows(n: Node, d: Disk, h: C.State, v: NodeId, src: NodeId, args: RequestVoteArgs) returns (h': C.State)
    requires C.Inv(h) && NodeRel(n, d, h, v) && VoteRequestRel(h, src, args) && src != NOBODY
    requires n.currentTerm == args.term && (n.votedFor == NOBODY || n.votedFor == args.candidate)
    requires LogIsUpToDate(args.lastIndex, args.lastTerm, LastIndex(n.log), LastTerm(n.log))
    ensures Follows(h, h', v, n.(votedFor := args.candidate), Saved(n.(votedFor := args.candidate), d))
    ensures VoteReplyRel(h', v, src, args, RequestVoteReply(args.term, true))
  {
    hide C.Inv, DiskRel, SnapshotRel, LeaderRel, P.Grows, P.Extends;
    CompactionInvisible(n.log, h.servers[v].log);
    if n.votedFor == NOBODY {
      h' := C.CastVote(h, v, src);
      E.CastVoteKeeps(h, v, src);
      P.ExtendsGrows(h, h');
      CastRel(n, d, h, v, src);
    } else {
      h' := h;
      ResavedRel(n, d, h, v);
      FollowsItself(n, Saved(n, d), h, v);
      VoteRecorded(h, v);
    }
  }

  lemma VoteRequestFollows(n: Node, d: Disk, h: C.State, v: NodeId, src: NodeId, args: RequestVoteArgs,
                           saveTerm: bool, saveVote: bool) returns (h': C.State)
    requires C.Inv(h) && NodeRel(n, d, h, v) && VoteRequestRel(h, src, args) && src != NOBODY
    ensures var (n', d', reply) := HandleRequestVote(n, d, args, saveTerm, saveVote);
            Follows(h, h', v, n', d') && VoteReplyRel(h', v, src, args, reply)
  {
    hide C.Inv, StateRel, DiskRel, SnapshotRel, LeaderRel, LogIsUpToDate;
    var (n1, d1, current) := Recognize(n, d, args.term, saveTerm);
    var h1 := RecognizeFollows(n, d, h, v, args.term, saveTerm);
    var (n', d', reply) := HandleRequestVote(n, d, args, saveTerm, saveVote);
    if reply.granted {
      h' := GrantFollows(n1, d1, h1, v, src, args);
      FollowsChain(h, h1, h', v, n', d');
    } else {
      h' := h1;
    }
  }
}
