/** Replication, as the nodes run it, is replication of the uncompacted protocol. */
module RaftReplicationSim {
  import opened Options
  import opened RaftTypes
  import opened RaftMessages
  import opened RaftLog
  import opened RaftHandlers
  import opened RaftCluster
  import opened RaftRefinement
  import opened RaftSimulation
  import C = Consensus
  import P = ConsensusProofs
  import S = ConsensusSteps
  import R = ConsensusReplication

  // ---------------------------------------------- following the leader's log

  /** Two grounded logs with the same term at `prev` are the same up to there. */
  lemma SamePrefix(reigns: map<nat, C.Reign>, full: C.Log, leader: C.Log, prev: nat)
    requires C.Grounded(reigns, full) && C.Grounded(reigns, leader)
    requires prev <= |full| && prev <= |leader| && FullTermAt(full, prev) == FullTermAt(leader, prev)
    ensures full[..prev] == leader[..prev]
  {
    if prev > 0 {
      P.GroundedMatch(reigns, full, leader, prev - 1);
    }
  }

  /** As far as the terms agree, so do the logs. */
  lemma CommonIsShared(reigns: map<nat, C.Reign>, full: C.Log, leader: C.Log, prev: nat, entries: seq<Entry>)
    requires C.Grounded(reigns, full) && C.Grounded(reigns, leader)
    requires prev <= |full| && prev + |entries| <= |leader| && entries == leader[prev..prev + |entries|]
    requires FullTermAt(full, prev) == FullTermAt(leader, prev)
    ensures var k := CommonTerms(full[prev..], entries);
            && prev + k <= |full|
            && full[..prev + k] == leader[..prev + k]
            && (k < |entries| ==> prev + k == |full| || full[prev + k] != leader[prev + k])
  {
    hide CommonTerms, C.Grounded, FullTermAt;
    TermsAgreeAt(full, leader, prev, entries);
    SamePrefix(reigns, full, leader, prev + CommonTerms(full[prev..], entries));
  }

  lemma TermsAgreeAt(full: C.Log, leader: C.Log, prev: nat, entries: seq<Entry>)
    requires prev <= |full| && prev + |entries| <= |leader| && entries == leader[prev..prev + |entries|]
    requires FullTermAt(full, prev) == FullTermAt(leader, prev)
    ensures var k := CommonTerms(full[prev..], entries);
            && prev + k <= |full|
            && FullTermAt(full, prev + k) == FullTermAt(leader, prev + k)
            && (k < |entries| ==> prev + k == |full| || full[prev + k] != leader[prev + k])
  {
    hide CommonTerms;
    var k := CommonTerms(full[prev..], entries);
    CommonTermsEnd(full[prev..], entries);
    if k > 0 {
      CommonTermAt(full[prev..], entries, k - 1);
      assert full[prev..][k - 1] == full[prev + k - 1] && entries[k - 1] == leader[prev + k - 1];
    }
    if k < |entries| && prev + k < |full| {
      assert entries[k] == leader[prev + k] && full[prev..][k] == full[prev + k];
    }
  }

  lemma AppendSplices(full: C.Log, prev: nat, entries: seq<Entry>)
    requires prev <= |full|
    ensures var k := CommonTerms(full[prev..], entries);
            FullAppendAfter(full, prev, entries) ==
            if k == |entries| then full else full[..prev + k] + Renumbered(entries[k..], prev + 1 + k)
  {
    hide CommonTerms, Renumbered;
  }

  lemma EitherLog(full: C.Log, target: C.Log, spliced: C.Log, all: bool)
    requires if all then target <= full else !(target <= full) && spliced == target
    ensures (if all then full else spliced) == C.Overlay(full, target)
  {
  }

  /** Log matching at work: a follower whose log agrees at `prev` ends with its
      own log if that has all the entries, and with the leader's otherwise. */
  lemma AppendIsOverlay(reigns: map<nat, C.Reign>, full: C.Log, leader: C.Log, prev: nat, entries: seq<Entry>)
    requires C.Grounded(reigns, full) && C.Grounded(reigns, leader)
    requires prev <= |full| && prev + |entries| <= |leader| && entries == leader[prev..prev + |entries|]
    requires FullTermAt(full, prev) == FullTermAt(leader, prev)
    ensures FullAppendAfter(full, prev, entries) == C.Overlay(full, leader[..prev + |entries|])
    ensures CommonTerms(full[prev..], entries) == |entries| ==> leader[..prev + |entries|] <= full
  {
    hide CommonTerms, C.Grounded, Renumbered, FullAppendAfter, FullTermAt, C.Overlay;
    var k, target := CommonTerms(full[prev..], entries), leader[..prev + |entries|];
    CommonIsShared(reigns, full, leader, prev, entries);
    SpliceIsTarget(reigns, full, leader, prev, entries, k);
    AppendSplices(full, prev, entries);
    EitherLog(full, target, full[..prev + k] + Renumbered(entries[k..], prev + 1 + k), k == |entries|);
  }

  lemma SpliceIsTarget(reigns: map<nat, C.Reign>, full: C.Log, leader: C.Log, prev: nat, entries: seq<Entry>, k: nat)
    requires C.Grounded(reigns, leader)
    requires prev + k <= |full| && k <= |entries| && prev + |entries| <= |leader|
    requires entries == leader[prev..prev + |entries|]
    requires full[..prev + k] == leader[..prev + k]
    requires k < |entries| ==> prev + k == |full| || full[prev + k] != leader[prev + k]
    ensures var target := leader[..prev + |entries|];
            if k == |entries| then target <= full
            else !(target <= full) && full[..prev + k] + Renumbered(entries[k..], prev + 1 + k) == target
  {
    var target := leader[..prev + |entries|];
    if k < |entries| {
      var rest := Renumbered(entries[k..], prev + 1 + k);
      forall i | 0 <= i < |rest|
        ensures rest[i] == target[prev + k + i]
      {
        assert entries[k..][i] == entries[k + i] == leader[prev + k + i];
      }
      assert full[..prev + k] + rest == target;
      assert target[prev + k] == leader[prev + k];
    }
  }

  lemma InvGrounded(h: C.State, v: NodeId, t: nat)
    requires C.Inv(h) && v in h.servers && t in h.reigns
    ensures C.Grounded(h.reigns, h.servers[v].log) && C.Grounded(h.reigns, h.reigns[t].log)
    ensures C.ReignsKeep(h)
  {
  }

  /** The node after it has taken over `k` entries of its leader's log. */
  lemma SyncRel(n: Node, d: Disk, h: C.State, v: NodeId, k: nat, n': Node, d': Disk)
    requires NodeRel(n, d, h, v) && C.MaySync(h, v, k) && P.Grows(h, C.Sync(h, v, k))
    requires n' == n.(role := Follower, log := n'.log, leaderId := n'.leaderId, chunkTransfer := n'.chunkTransfer,
                      snapshotData := n'.snapshotData, pendingSnapshot := n'.pendingSnapshot)
    requires Represents(n'.log, C.Sync(h, v, k).servers[v].log) && Boundary(n'.log) <= h.servers[v].settled
    requires DiskRel(n', d')
    requires d'.snapshot == d.snapshot
             || (d'.snapshot.Some? && SnapshotRel(C.Sync(h, v, k), C.Sync(h, v, k).servers[v], d'.snapshot.value))
    requires C.Inv(h)
    ensures NodeRel(n', d', C.Sync(h, v, k), v) && Elsewhere(h, C.Sync(h, v, k), v)
  {
    hide C.Inv, P.Grows, SnapshotRel, DiskRel;
    var h' := C.Sync(h, v, k);
    if d'.snapshot.Some? && d'.snapshot == d.snapshot {
      SnapshotLater(h, h', h.servers[v], h'.servers[v], d'.snapshot.value);
    }
  }

  lemma SyncFollows(n: Node, d: Disk, h: C.State, v: NodeId, k: nat, n': Node, d': Disk) returns (h': C.State)
    requires C.Inv(h) && NodeRel(n, d, h, v) && C.MaySync(h, v, k)
    requires n' == n.(role := Follower, log := n'.log, leaderId := n'.leaderId, chunkTransfer := n'.chunkTransfer)
    requires Represents(n'.log, C.Overlay(h.servers[v].log, h.reigns[h.servers[v].term].log[..k]))
    requires Boundary(n'.log) <= h.servers[v].settled
    requires DiskRel(n', d') && d'.snapshot == d.snapshot
    ensures h' == C.Sync(h, v, k) && Follows(h, h', v, n', d')
  {
    hide C.Inv, P.Grows, P.Extends, SnapshotRel, DiskRel;
    h' := C.Sync(h, v, k);
    R.SyncKeeps(h, v, k);
    P.ExtendsGrows(h, h');
    SyncRel(n, d, h, v, k, n', d');
  }

  /** A node that recognizes its leader without changing its log. */
  lemma YieldFollows(n: Node, d: Disk, h: C.State, v: NodeId, n': Node) returns (h': C.State)
    requires C.Inv(h) && NodeRel(n, d, h, v)
    requires n.currentTerm in h.reigns && h.reigns[n.currentTerm].leader != v
    requires n' == n.(role := Follower, leaderId := n'.leaderId, chunkTransfer := n'.chunkTransfer)
    ensures Follows(h, h', v, n', d)
  {
    hide C.Inv, SnapshotRel;
    h' := SyncFollows(n, d, h, v, 0, n', d);
  }

  /** The node after it has accepted entries that fit its log, and its disk. */
  function Accepted(n: Node, args: AppendEntriesArgs): Node
    requires ValidNode(n) && TermAt(n.log, args.prevIndex).Some?
  {
    n.(role := Follower, leaderId := args.leader, log := AppendAfter(n.log, args.prevIndex, args.entries))
  }

  function AcceptedDisk(n: Node, d: Disk, args: AppendEntriesArgs): Disk
    requires ValidNode(n) && TermAt(n.log, args.prevIndex).Some?
  {
    if Matching(n.log, args.prevIndex, args.entries) < |args.entries| then Saved(Accepted(n, args), d) else d
  }

  lemma AcceptShape(n: Node, d: Disk, reigns: map<nat, C.Reign>, full: C.Log, leader: C.Log, args: AppendEntriesArgs)
    requires ValidNode(n) && DiskRel(n, d) && Represents(n.log, full)
    requires TermAt(n.log, args.prevIndex) == Some(args.prevTerm)
    requires C.Grounded(reigns, full) && C.Grounded(reigns, leader)
    requires args.prevIndex + |args.entries| <= |leader|
    requires args.entries == leader[args.prevIndex..args.prevIndex + |args.entries|]
    requires args.prevTerm == FullTermAt(leader, args.prevIndex)
    ensures Represents(Accepted(n, args).log, C.Overlay(full, leader[..args.prevIndex + |args.entries|]))
    ensures DiskRel(Accepted(n, args), AcceptedDisk(n, d, args))
    ensures Boundary(Accepted(n, args).log) == Boundary(n.log)
  {
    hide CommonTerms, AppendAfter, FullAppendAfter, DiskRel, Represents;
    var k := args.prevIndex + |args.entries|;
    CompactionInvisible(n.log, full);
    AppendIsOverlay(reigns, full, leader, args.prevIndex, args.entries);
    AppendAfterRepresents(n.log, full, args.prevIndex, args.entries);
    P.GroundedPrefix(reigns, leader, leader[..k]);
    AcceptSaved(n, d, Accepted(n, args), AcceptedDisk(n, d, args), C.Overlay(full, leader[..k]), args);
  }

  lemma HoldsTerm(n: Node, d: Disk, h: C.State, v: NodeId)
    requires NodeRel(n, d, h, v)
    ensures v in h.servers && h.servers[v].term == n.currentTerm && ValidNode(n) && DiskRel(n, d)
    ensures Represents(n.log, h.servers[v].log) && Boundary(n.log) <= h.servers[v].settled
  {
  }

  lemma AcceptFollows(n: Node, d: Disk, h: C.State, v: NodeId, src: NodeId, args: AppendEntriesArgs)
    returns (h': C.State)
    requires NodeRel(n, d, h, v) && AppendRel(h, src, args) && src != v && n.currentTerm == args.term
    requires TermAt(n.log, args.prevIndex) == Some(args.prevTerm)
    requires C.Inv(h)
    ensures Follows(h, h', v, Accepted(n, args), AcceptedDisk(n, d, args))
    ensures C.Ack(h', v, args.term) >= args.prevIndex + |args.entries|
    ensures h.reigns[args.term].log[..args.prevIndex + |args.entries|] <= h'.servers[v].log
    ensures h'.servers[v].term == args.term
  {
    hide C.Inv, P.Grows, P.Extends, SnapshotRel, C.Witnessed, LeaderRel, AppendAfter, DiskRel, Represents, Matching,
         C.Grounded, C.ReignsKeep,
      NodeRel, Elsewhere;
    HoldsTerm(n, d, h, v);
    InvGrounded(h, v, args.term);
    AcceptShape(n, d, h.reigns, h.servers[v].log, h.reigns[args.term].log, args);
    h' := SyncFollows(n, d, h, v, args.prevIndex + |args.entries|, Accepted(n, args), AcceptedDisk(n, d, args));
  }

  lemma AcceptSaved(n: Node, d: Disk, n': Node, d': Disk, full: seq<Entry>, args: AppendEntriesArgs)
    requires ValidNode(n) && DiskRel(n, d) && Boundary(n.log) <= args.prevIndex <= LastIndex(n.log)
    requires n' == n.(role := Follower, leaderId := args.leader,
                      log := AppendAfter(n.log, args.prevIndex, args.entries))
    requires d' == if Matching(n.log, args.prevIndex, args.entries) < |args.entries| then Saved(n', d) else d
    requires Represents(n'.log, full) && Numbered(full)
    ensures DiskRel(n', d') && Boundary(n'.log) == Boundary(n.log)
  {
    if Matching(n.log, args.prevIndex, args.entries) < |args.entries| {
      SavedRel(n', d, full);
    }
  }

  lemma LearnFollows(n: Node, d: Disk, h: C.State, v: NodeId, c: nat) returns (h': C.State)
    requires C.Inv(h) && NodeRel(n, d, h, v) && C.MayLearn(h, v, c)
    ensures h' == C.Learn(h, v, c) && Follows(h, h', v, Committed(n, c), d)
  {
    hide C.Inv, P.Grows, P.Extends, StateRel, LeaderRel, SnapshotRel, DiskRel, C.Witnessed;
    h' := C.Learn(h, v, c);
    S.LearnKeeps(h, v, c);
    P.ExtendsGrows(h, h');
    LearnRel(n, d, h, v, c, Committed(n, c));
  }

  /** What the leader had committed when it sent its entries is settled for a
      follower that now holds them. */
  lemma MayLearnFromLeader(h: C.State, h1: C.State, v: NodeId, t: nat, commit: nat, k: nat)
    requires C.Inv(h) && P.Grows(h, h1) && C.Inv(h1) && v in h1.servers && h1.servers[v].term == t && t in h.reigns
    requires C.Witnessed(h, commit, t) && commit <= |h.reigns[t].log| && k <= |h.reigns[t].log|
    requires h.reigns[t].log[..k] <= h1.servers[v].log
    ensures C.MayLearn(h1, v, Smaller(commit, k))
  {
    hide C.Inv, C.Witnessed, P.Grows;
    var c := Smaller(commit, k);
    GrownReign(h, h1, t);
    InvGrounded(h1, v, t);
    P.WitnessedShorter(h, commit, c, t);
    P.WitnessedForward(h, h1, c, t, t);
    P.WitnessedWithin(h1, c, t, t);
    WitnessedLength(h1, c, t);
    assert h.reigns[t].log[..k][..c] == h1.reigns[t].log[..c];
  }

  lemma WitnessedLength(h: C.State, x: nat, t: nat)
    requires C.Witnessed(h, x, t)
    ensures x <= |h.chosen|
  {
  }

  lemma GrownReign(h: C.State, h1: C.State, t: nat)
    requires P.Grows(h, h1) && t in h.reigns
    ensures t in h1.reigns && h.reigns[t].log <= h1.reigns[t].log && h1.reigns[t].leader == h.reigns[t].leader
  {
  }

  lemma AppendFollows(n: Node, d: Disk, h: C.State, v: NodeId, src: NodeId, args: AppendEntriesArgs,
                      saveTerm: bool, saveLog: bool) returns (h': C.State)
    requires NodeRel(n, d, h, v) && AppendRel(h, src, args) && src != v
    requires C.Inv(h)
    ensures var (n', d', reply) := HandleAppendEntries(n, d, args, saveTerm, saveLog);
            && Follows(h, h', v, n', d')
            && (reply.success ==> Confirms(h', v, args.term, args.prevIndex + |args.entries|))
            && reply.term == n'.currentTerm
  {
    hide C.Inv, StateRel, DiskRel, SnapshotRel, LeaderRel, P.Grows, AppendAfter, Matching;
    var (n1, d1, current) := Recognize(n, d, args.term, saveTerm);
    var h1 := RecognizeFollows(n, d, h, v, args.term, saveTerm);
    var (n', d', reply) := HandleAppendEntries(n, d, args, saveTerm, saveLog);
    AppendForward(h, h1, src, args);
    if !current {
      h' := h1;
    } else if !reply.success {
      h' := YieldFollows(n1, d1, h1, v, n');
      FollowsChain(h, h1, h', v, n', d');
    } else {
      var h2 := AcceptFollows(n1, d1, h1, v, src, args);
      h' := CommitFollows(Accepted(n1, args), AcceptedDisk(n1, d1, args), h1, h2, v, src, args);
      FollowsChain(h1, h2, h', v, n', d');
      FollowsChain(h, h1, h', v, n', d');
    }
  }

  lemma CommitFollows(n: Node, d: Disk, h: C.State, h1: C.State, v: NodeId, src: NodeId, args: AppendEntriesArgs)
    returns (h': C.State)
    requires P.Grows(h, h1) && NodeRel(n, d, h1, v) && AppendRel(h, src, args)
    requires h1.servers[v].term == args.term
    requires h.reigns[args.term].log[..args.prevIndex + |args.entries|] <= h1.servers[v].log
    requires C.Inv(h) && C.Inv(h1)
    ensures Follows(h1, h', v, Committed(n, Smaller(args.leaderCommit, args.prevIndex + |args.entries|)), d)
    ensures h'.acked == h1.acked
  {
    hide C.Inv, StateRel, DiskRel, SnapshotRel, LeaderRel, P.Grows;
    MayLearnFromLeader(h, h1, v, args.term, args.leaderCommit, args.prevIndex + |args.entries|);
    h' := LearnFollows(n, d, h1, v, Smaller(args.leaderCommit, args.prevIndex + |args.entries|));
  }

  // --------------------------------------------------- the leader's side of it

  lemma LeaderMoves(n: Node, d: Disk, h: C.State, v: NodeId, n': Node)
    requires NodeRel(n, d, h, v)
    requires n' == n.(nextIndex := n'.nextIndex, matchIndex := n'.matchIndex) && LeaderRel(n', h, v)
    ensures NodeRel(n', d, h, v)
  {
    hide SnapshotRel, LeaderRel, Represents;
  }

  lemma MatchedRel(n: Node, h: C.State, v: NodeId, peer: NodeId, index: nat)
    requires v in h.servers && LeaderRel(n, h, v) && n.role == Leader
    requires index <= |h.servers[v].log| && Confirms(h, peer, n.currentTerm, index)
    ensures LeaderRel(Matched(n, peer, index), h, v)
  {
  }

  lemma BackedOffRel(n: Node, h: C.State, v: NodeId, peer: NodeId)
    requires v in h.servers && LeaderRel(n, h, v)
    ensures LeaderRel(BackedOff(n, peer), h, v)
  {
  }

  lemma MatchedFollows(n: Node, d: Disk, h: C.State, v: NodeId, peer: NodeId, index: nat) returns (h': C.State)
    requires NodeRel(n, d, h, v) && n.role == Leader
    requires n.currentTerm in h.reigns && index <= |h.reigns[n.currentTerm].log|
    requires Confirms(h, peer, n.currentTerm, index)
    requires C.Inv(h)
    ensures Follows(h, h', v, AdvanceCommit(Matched(n, peer, index)), d)
  {
    hide C.Inv, DiskRel, SnapshotRel, P.Grows, LeaderRel, AdvanceCommit;
    LeaderReigns(h, v);
    MatchedRel(n, h, v, peer, index);
    LeaderMoves(n, d, h, v, Matched(n, peer, index));
    h' := AdvanceFollows(Matched(n, peer, index), d, h, v);
  }

  lemma AppendReplyFollows(n: Node, d: Disk, h: C.State, v: NodeId, peer: NodeId, args: AppendEntriesArgs,
                           reply: AppendEntriesReply, save: bool) returns (h': C.State)
    requires NodeRel(n, d, h, v) && AppendRel(h, v, args)
    requires reply.success ==> Confirms(h, peer, args.term, args.prevIndex + |args.entries|)
    requires C.Inv(h)
    ensures var (n', d', _) := OnAppendReply(n, d, peer, args, reply, save); Follows(h, h', v, n', d')
  {
    hide C.Inv, DiskRel, SnapshotRel, LeaderRel, P.Grows, AdvanceCommit, C.Witnessed;
    if reply.term > n.currentTerm {
      h' := BecomeFollowerFollows(n, d, h, v, reply.term, save);
    } else if n.role != Leader || n.currentTerm != args.term {
      h' := h;
      FollowsItself(n, d, h, v);
    } else if reply.success {
      h' := MatchedFollows(n, d, h, v, peer, args.prevIndex + |args.entries|);
    } else {
      h' := h;
      BackedOffRel(n, h, v, peer);
      LeaderMoves(n, d, h, v, BackedOff(n, peer));
      FollowsItself(BackedOff(n, peer), d, h, v);
    }
  }

  // ------------------------------------------------------------- new commands

  function Extended(n: Node, command: Bytes): Node
    requires ValidNode(n)
  {
    n.(log := n.log + [Entry(LastIndex(n.log) + 1, n.currentTerm, command)])
  }

  lemma ExtendedRepresents(n: Node, full: C.Log, command: Bytes)
    requires ValidNode(n) && Represents(n.log, full)
    ensures LastIndex(n.log) == |full|
    ensures Represents(Extended(n, command).log, full + [Entry(|full| + 1, n.currentTerm, command)])
  {
    RepresentsLength(n.log, full);
    var e := Entry(|full| + 1, n.currentTerm, command);
    var b := Boundary(n.log);
    assert (n.log + [e])[1..] == n.log[1..] + [e] && (full + [e])[b..] == full[b..] + [e];
  }

  lemma ExtendedSaved(n: Node, d: Disk, command: Bytes, full: C.Log)
    requires ValidNode(n) && DiskRel(n, d) && Represents(Extended(n, command).log, full) && Numbered(full)
    ensures DiskRel(Extended(n, command), Saved(Extended(n, command), d))
  {
    SavedRel(Extended(n, command), d, full);
  }

  lemma AppendedRel(n: Node, d: Disk, h: C.State, v: NodeId, command: Bytes, e: Entry)
    requires NodeRel(n, d, h, v) && C.MayAppend(h, v, e) && P.Grows(h, C.Append(h, v, e))
    requires e == Entry(|h.servers[v].log| + 1, n.currentTerm, command)
    requires C.Inv(h)
    ensures NodeRel(Extended(n, command), Saved(Extended(n, command), d), C.Append(h, v, e), v)
    ensures Elsewhere(h, C.Append(h, v, e), v)
  {
    hide C.Inv, P.Grows, SnapshotRel, Represents, LeaderRel, DiskRel;
    var h' := C.Append(h, v, e);
    ExtendedRepresents(n, h.servers[v].log, command);
    GroundedNumbered(h, v);
    ExtendedSaved(n, d, command, h'.servers[v].log);
    if d.snapshot.Some? {
      SnapshotLater(h, h', h.servers[v], h'.servers[v], d.snapshot.value);
    }
    AppendedLeader(n, h, v, command, e);
  }

  lemma AppendedLeader(n: Node, h: C.State, v: NodeId, command: Bytes, e: Entry)
    requires v in h.servers && ValidNode(n) && n.role == Leader && LeaderRel(n, h, v) && C.MayAppend(h, v, e)
    requires n.currentTerm == h.servers[v].term && PeersOf(n.peers, v, h.servers.Keys) && P.Grows(h, C.Append(h, v, e))
    ensures LeaderRel(Extended(n, command), C.Append(h, v, e), v)
  {
    hide P.Grows, Confirms;
    var h' := C.Append(h, v, e);
    forall p | p in n.peers
      ensures Confirms(h', p, n.currentTerm, Get(n.matchIndex, p))
    {
      ConfirmsForward(h, h', p, n.currentTerm, Get(n.matchIndex, p));
    }
  }

  lemma ProposeFollows(n: Node, d: Disk, h: C.State, v: NodeId, config: Config, command: Bytes, save: bool)
      returns (h': C.State)
    requires NodeRel(n, d, h, v)
    requires C.Inv(h)
    ensures var out := Propose(n, d, config, command, save);
            Follows(h, h', v, out.node, out.disk) && Justified(h', v, out.sent)
  {
    hide C.Inv, DiskRel, SnapshotRel, LeaderRel, P.Grows, P.Extends, Justified, Broadcast, C.Append;
    var out := Propose(n, d, config, command, save);
    if n.role != Leader || !save {
      h' := h;
      FollowsItself(n, d, h, v);
      NothingJustified(h, v);
    } else {
      var e := Entry(|h.servers[v].log| + 1, n.currentTerm, command);
      ExtendedRepresents(n, h.servers[v].log, command);
      LeaderReigns(h, v);
      var h1 := C.Append(h, v, e);
      R.AppendKeeps(h, v, e);
      P.ExtendsGrows(h, h1);
      AppendedRel(n, d, h, v, command, e);
      var d1 := Saved(Extended(n, command), d);
      h' := BroadcastFollows(Extended(n, command), d1, h1, v, config);
      FollowsChain(h, h1, h', v, out.node, out.disk);
    }
  }

  lemma NothingJustified(h: C.State, v: NodeId)
    ensures Justified(h, v, {})
  {
  }
}
