/** Each thing a node does is a sequence of steps of the uncompacted protocol. */
module RaftSimulation {
  import opened RaftTypes
  import opened RaftMessages
  import opened RaftLog
  import opened RaftHandlers
  import opened RaftRefinement
  import C = Consensus
  import P = ConsensusProofs
  import S = ConsensusSteps

  /** `h'` extends `h` at server `v` only, where the node is again related. */
  ghost predicate Follows(h: C.State, h': C.State, v: NodeId, n: Node, d: Disk) {
    C.Inv(h') && P.Grows(h, h') && Elsewhere(h, h', v) && NodeRel(n, d, h', v)
  }

  /** The same, where the node may be left with a torn log. */
  ghost predicate Trails(h: C.State, h': C.State, v: NodeId, n: Node, d: Disk) {
    C.Inv(h') && P.Grows(h, h') && Elsewhere(h, h', v) && Tied(n, d, h', v)
  }

  ghost predicate Justified(h: C.State, v: NodeId, sent: set<Message>) {
    forall m :: m in sent ==> m.src == v && MessageRel(h, m)
  }

  // ---------------------------------------------------------- saving entries

  /** Entries all above the floor are all kept. */
  lemma {:induction false} AboveAll(entries: seq<Entry>, floor: nat)
    requires forall i :: 0 <= i < |entries| ==> entries[i].index > floor
    ensures Above(entries, floor) == entries
  {
    if entries != [] {
      AboveAll(entries[1..], floor);
    }
  }

  lemma {:induction false} AboveNone(entries: seq<Entry>, floor: nat)
    requires forall i :: 0 <= i < |entries| ==> entries[i].index <= floor
    ensures Above(entries, floor) == []
  {
    if entries != [] {
      AboveNone(entries[1..], floor);
    }
  }

  lemma {:induction false} AboveTwice(entries: seq<Entry>, low: nat, high: nat)
    requires low <= high
    ensures Above(Above(entries, low), high) == Above(entries, high)
  {
    if entries != [] {
      AboveTwice(entries[1..], low, high);
      var rest := Above(entries[1..], low);
      if entries[0].index > low {
        assert Above(entries, low)[1..] == rest;
      } else {
        assert Above(entries, low) == rest;
      }
    }
  }

  /** Above a position in the log, what remains is the rest of the log. */
  lemma {:induction false} AboveSuffix(full: seq<Entry>, b: nat, x: nat)
    requires Numbered(full) && b <= |full| && b <= x
    ensures Above(full[b..], x) == if x <= |full| then full[x..] else []
    decreases |full| - b
  {
    if b < |full| {
      if x == b {
        AboveAll(full[b..], x);
      } else {
        assert full[b..][1..] == full[b + 1..];
        AboveSuffix(full, b + 1, x);
      }
    }
  }

  lemma SavedRel(n: Node, d: Disk, full: seq<Entry>)
    requires ValidNode(n) && Represents(n.log, full) && Numbered(full) && Boundary(n.log) <= SnapshotIndex(d)
    ensures DiskRel(n, Saved(n, d))
  {
    SuffixSaved(n, d, full);
  }

  /** What is saved is what the log has above its boundary. */
  lemma SuffixSaved(n: Node, d: Disk, full: seq<Entry>)
    requires ValidNode(n) && Boundary(n.log) <= |full| && n.log[1..] == full[Boundary(n.log)..] && Numbered(full)
    requires Boundary(n.log) <= SnapshotIndex(d)
    ensures DiskRel(n, Saved(n, d))
  {
    AboveSuffix(full, Boundary(n.log), Boundary(n.log));
  }

  lemma GroundedNumbered(h: C.State, v: NodeId)
    requires C.Inv(h) && v in h.servers
    ensures Numbered(h.servers[v].log)
  {
  }

  // -------------------------------------------------------------------- terms

  lemma SnapshotLater(h: C.State, h': C.State, s: C.Server, s': C.Server, snapshot: Snapshot)
    requires P.Grows(h, h') && SnapshotRel(h, s, snapshot) && s.term <= s'.term
    ensures SnapshotRel(h', s', snapshot)
  {
    P.WitnessedForward(h, h', snapshot.index, s.term, s'.term);
    assert h'.chosen[..snapshot.index] == h.chosen[..snapshot.index];
  }

  lemma StepDown(n: Node, d: Disk, h: C.State, v: NodeId, term: nat) returns (h': C.State)
    requires C.Inv(h) && NodeRel(n, d, h, v) && term > n.currentTerm
    ensures Follows(h, h', v, SteppedDown(n, term), Saved(SteppedDown(n, term), d))
    ensures h'.servers[v].log == h.servers[v].log
  {
    hide C.Inv, P.Extends, P.Grows, SnapshotRel;
    GroundedNumbered(h, v);
    h' := C.BumpTerm(h, v, term);
    S.BumpTermKeeps(h, v, term);
    P.ExtendsGrows(h, h');
    SavedRel(SteppedDown(n, term), d, h.servers[v].log);
    if d.snapshot.Some? {
      SnapshotLater(h, h', h.servers[v], h'.servers[v], d.snapshot.value);
    }
  }

  lemma FollowsItself(n: Node, d: Disk, h: C.State, v: NodeId)
    requires C.Inv(h) && NodeRel(n, d, h, v)
    ensures Follows(h, h, v, n, d)
  {
    hide C.Inv, NodeRel;
  }

  lemma BecomeFollowerFollows(n: Node, d: Disk, h: C.State, v: NodeId, term: nat, save: bool) returns (h': C.State)
    requires C.Inv(h) && NodeRel(n, d, h, v) && term > n.currentTerm
    ensures var (n', d') := BecomeFollower(n, d, term, save); Follows(h, h', v, n', d')
    ensures h'.servers[v].log == h.servers[v].log
  {
    if save {
      h' := StepDown(n, d, h, v, term);
    } else {
      h' := h;
      FollowsItself(n, d, h, v);
    }
  }

  lemma RecognizeFollows(n: Node, d: Disk, h: C.State, v: NodeId, term: nat, save: bool) returns (h': C.State)
    requires C.Inv(h) && NodeRel(n, d, h, v)
    ensures var (n', d', _) := Recognize(n, d, term, save);
            Follows(h, h', v, n', d') && n'.log == n.log && n'.chunkTransfer == n.chunkTransfer
    ensures h'.servers[v].log == h.servers[v].log
  {
    if term > n.currentTerm {
      h' := BecomeFollowerFollows(n, d, h, v, term, save);
    } else {
      h' := h;
      FollowsItself(n, d, h, v);
    }
  }

  // ---------------------------------------------------- what a leader may send

  lemma InvSettled(h: C.State)
    requires C.Inv(h)
    ensures C.SettledHeld(h) && C.SettledWitnessed(h)
  {
  }

  /** What a server has settled is chosen, by its own term. */
  lemma SettledFacts(h: C.State, v: NodeId, x: nat)
    requires C.Inv(h) && v in h.servers && x <= h.servers[v].settled
    ensures C.Witnessed(h, x, h.servers[v].term)
    ensures x <= |h.chosen| && h.chosen[..x] <= h.servers[v].log
  {
    hide C.Inv, C.Witnessed;
    InvSettled(h);
    P.WitnessedShorter(h, h.servers[v].settled, x, h.servers[v].term);
    assert h.chosen[..x] == h.chosen[..h.servers[v].settled][..x];
  }

  lemma CommitWithin(h: C.State, v: NodeId)
    requires C.Inv(h) && v in h.servers
    ensures h.servers[v].commit <= h.servers[v].settled <= |h.servers[v].log|
  {
  }

  lemma LeaderReigns(h: C.State, v: NodeId)
    requires C.Inv(h) && v in h.servers && h.servers[v].role == Leader
    ensures h.servers[v].term in h.reigns
    ensures h.reigns[h.servers[v].term].leader == v
    ensures h.reigns[h.servers[v].term].log == h.servers[v].log
  {
    assert C.LeaderValid(h, v);
  }

  lemma AppendCallJustified(n: Node, d: Disk, h: C.State, v: NodeId, p: NodeId, read: nat)
    requires C.Inv(h) && NodeRel(n, d, h, v) && n.role == Leader && p in n.peers
    requires Get(n.nextIndex, p) > Boundary(n.log)
    ensures AppendCall(n, p, read).src == v && MessageRel(h, AppendCall(n, p, read))
  {
    hide C.Inv, C.Witnessed, DiskRel, SnapshotRel;
    LeaderReigns(h, v);
    CommitWithin(h, v);
    SettledFacts(h, v, n.commitIndex);
    CompactionInvisible(n.log, h.servers[v].log);
    var args := AppendCall(n, p, read).append;
    var log := h.servers[v].log;
    assert args.entries == log[args.prevIndex..];
    assert log[args.prevIndex..args.prevIndex + |args.entries|] == log[args.prevIndex..];
    assert AppendRel(h, v, args);
  }

  lemma ChunkCallJustified(n: Node, d: Disk, h: C.State, v: NodeId, config: Config, p: NodeId, data: Bytes)
    requires C.Inv(h) && NodeRel(n, d, h, v) && n.role == Leader && p in n.peers && Boundary(n.log) > 0
    ensures var m := ChunkCall(v, p, n.currentTerm, Snapshot(Boundary(n.log), n.log[0].term, data), 0, config);
            MessageRel(h, m)
  {
    hide C.Inv, C.Witnessed, DiskRel, SnapshotRel;
    LeaderReigns(h, v);
    CommitWithin(h, v);
    SettledFacts(h, v, Boundary(n.log));
  }

  lemma BroadcastJustified(n: Node, d: Disk, h: C.State, v: NodeId, config: Config)
    requires C.Inv(h) && NodeRel(n, d, h, v) && n.role == Leader
    ensures Justified(h, v, Broadcast(n, d, config).sent)
  {
    hide C.Inv, MessageRel;
    forall m | m in Broadcast(n, d, config).sent
      ensures m.src == v && MessageRel(h, m)
    {
      var p :| p in n.peers && m == PeerCall(n, config, p);
      if Get(n.nextIndex, p) <= Boundary(n.log) {
        ChunkCallJustified(n, d, h, v, config, p, n.snapshotData);
      } else {
        AppendCallJustified(n, d, h, v, p, 0);
      }
    }
  }

  lemma ReadCallsJustified(n: Node, d: Disk, h: C.State, v: NodeId, read: nat)
    requires C.Inv(h) && NodeRel(n, d, h, v) && n.role == Leader
    ensures Justified(h, v, ReadCalls(n, read))
  {
    hide C.Inv, MessageRel;
    forall m | m in ReadCalls(n, read)
      ensures m.src == v && MessageRel(h, m)
    {
      var p :| p in n.peers && Get(n.nextIndex, p) > Boundary(n.log) && m == AppendCall(n, p, read);
      AppendCallJustified(n, d, h, v, p, read);
    }
  }

  // ------------------------------------------------------------- committing

  /** Counting distinct peers counts a set of nodes. */
  lemma {:induction false} CountIsSet(peers: seq<NodeId>, matchIndex: map<NodeId, nat>, index: nat)
      returns (q: set<NodeId>)
    requires forall i, j :: 0 <= i < j < |peers| ==> peers[i] != peers[j]
    ensures |q| == CountMatches(peers, matchIndex, index)
    ensures forall p :: p in q ==> p in peers && Get(matchIndex, p) >= index
  {
    if peers == [] {
      q := {};
    } else {
      var last := peers[|peers| - 1];
      var before := peers[..|peers| - 1];
      q := CountIsSet(before, matchIndex, index);
      if Get(matchIndex, last) >= index {
        assert last !in before;
        q := q + {last};
      }
    }
  }

  /** What a leader finds committable it may decide, unless it is chosen
      already: then it may learn that. */
  lemma CommittableChosen(n: Node, d: Disk, h: C.State, v: NodeId, k: nat)
    requires C.Inv(h) && NodeRel(n, d, h, v) && n.role == Leader
    requires Committable(n, k) && k > n.commitIndex
    ensures C.MayDecide(h, v, k) || C.MayLearn(h, v, k)
  {
    hide C.Inv, C.Witnessed, DiskRel, SnapshotRel, Represents;
    LeaderReigns(h, v);
    CommitWithin(h, v);
    CompactionInvisible(n.log, h.servers[v].log);
    var q := CountIsSet(n.peers, n.matchIndex, k);
    if p :| p in q && C.Ack(h, p, n.currentTerm) < k {
      var x := Get(n.matchIndex, p);
      assert C.Witnessed(h, x, n.currentTerm);
      P.WitnessedShorter(h, x, k, n.currentTerm);
      WitnessedHeld(h, v, k);
    } else {
      assert |q + {v}| == |q| + 1;
      assert C.IsQuorum(h.servers.Keys, q + {v});
      assert C.Confirmed(h, n.currentTerm, k, q + {v});
      assert C.Owned(h, n.currentTerm, k);
    }
  }

  /** A leader's log has what is chosen by its own term. */
  lemma WitnessedHeld(h: C.State, v: NodeId, x: nat)
    requires v in h.servers && h.servers[v].role == Leader && C.Witnessed(h, x, h.servers[v].term)
    requires C.Inv(h)
    ensures C.MayLearn(h, v, x)
  {
    LeaderReigns(h, v);
    P.WitnessedWithin(h, x, h.servers[v].term, h.servers[v].term);
  }

  lemma LearnRel(n: Node, d: Disk, h: C.State, v: NodeId, c: nat, n': Node)
    requires C.Inv(h) && NodeRel(n, d, h, v) && C.MayLearn(h, v, c) && P.Grows(h, C.Learn(h, v, c))
    requires n' == n.(commitIndex := C.Max(n.commitIndex, c))
    ensures NodeRel(n', d, C.Learn(h, v, c), v) && Elsewhere(h, C.Learn(h, v, c), v)
  {
    hide C.Inv, C.MayLearn, P.Grows, SnapshotRel, Represents, Confirms, Above;
    var h' := C.Learn(h, v, c);
    if d.snapshot.Some? {
      SnapshotLater(h, h', h.servers[v], h'.servers[v], d.snapshot.value);
    }
    LeaderForward(n, h, h', v);
  }

  lemma DecideRel(n: Node, d: Disk, h: C.State, v: NodeId, k: nat)
    requires C.Inv(h) && NodeRel(n, d, h, v) && C.MayDecide(h, v, k) && P.Grows(h, C.Decide(h, v, k))
    ensures NodeRel(n.(commitIndex := k), d, C.Decide(h, v, k), v)
    ensures Elsewhere(h, C.Decide(h, v, k), v)
  {
    hide C.Inv, P.Grows, SnapshotRel, Confirms, Above, Represents;
    var h' := C.Decide(h, v, k);
    if d.snapshot.Some? {
      SnapshotLater(h, h', h.servers[v], h'.servers[v], d.snapshot.value);
    }
    LeaderForward(n, h, h', v);
  }

  lemma AdvanceFollows(n: Node, d: Disk, h: C.State, v: NodeId) returns (h': C.State)
    requires C.Inv(h) && NodeRel(n, d, h, v) && n.role == Leader
    ensures Follows(h, h', v, AdvanceCommit(n), d)
  {
    hide C.Inv, StateRel, DiskRel, SnapshotRel, LeaderRel, C.ChosenAt, P.Grows, P.Extends;
    var k := HighestCommittable(n, LastIndex(n.log));
    if k > n.commitIndex {
      CommittableChosen(n, d, h, v, k);
      if C.MayDecide(h, v, k) {
        h' := C.Decide(h, v, k);
        S.DecideKeeps(h, v, k);
        P.ExtendsGrows(h, h');
        DecideRel(n, d, h, v, k);
      } else {
        h' := C.Learn(h, v, k);
        S.LearnKeeps(h, v, k);
        P.ExtendsGrows(h, h');
        LearnRel(n, d, h, v, k, AdvanceCommit(n));
      }
    } else {
      h' := h;
      FollowsItself(n, d, h, v);
    }
  }

  // ------------------------------------------------------------- composition

  lemma FollowsChain(h: C.State, h1: C.State, h2: C.State, v: NodeId, n: Node, d: Disk)
    requires P.Grows(h, h1) && Elsewhere(h, h1, v) && Follows(h1, h2, v, n, d)
    ensures Follows(h, h2, v, n, d)
  {
    hide C.Inv, NodeRel;
    P.GrowsTransitive(h, h1, h2);
  }

  lemma JustifiedForward(h: C.State, h': C.State, v: NodeId, sent: set<Message>)
    requires P.Grows(h, h') && v in h.servers && Justified(h, v, sent)
    ensures Justified(h', v, sent)
  {
    hide P.Grows, MessageRel;
    forall m | m in sent
      ensures m.src == v && MessageRel(h', m)
    {
      MessageForward(h, h', m);
    }
  }

  lemma BroadcastFollows(n: Node, d: Disk, h: C.State, v: NodeId, config: Config) returns (h': C.State)
    requires C.Inv(h) && NodeRel(n, d, h, v) && n.role == Leader
    ensures Follows(h, h', v, Broadcast(n, d, config).node, d)
    ensures Justified(h', v, Broadcast(n, d, config).sent)
    ensures Broadcast(n, d, config).disk == d
  {
    hide C.Inv, StateRel, DiskRel, SnapshotRel, LeaderRel, P.Grows, Justified;
    BroadcastJustified(n, d, h, v, config);
    h' := AdvanceFollows(n, d, h, v);
    JustifiedForward(h, h', v, Broadcast(n, d, config).sent);
  }
}
