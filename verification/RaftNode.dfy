/** The node as the object that it is: fields that the handlers update step by
    step, with a persister whose saves may fail. Every method is proved equal
    to the handler function of the same event, so everything that is proved
    about clusters of those functions is about these methods. */
module RaftNode {
  import opened Options
  import opened RaftTypes
  import opened RaftMessages
  import L = RaftLog
  import opened H = RaftHandlers
  import opened RaftCluster

  class Raft {
    const id: NodeId
    const peers: seq<NodeId>
    const log: L.Log
    var currentTerm: nat
    var votedFor: NodeId
    var commitIndex: nat
    var lastApplied: nat
    var role: Role
    var leaderId: NodeId
    var votesReceived: set<NodeId>
    var nextIndex: map<NodeId, nat>
    var matchIndex: map<NodeId, nat>
    var snapshotData: Bytes
    var pendingSnapshot: Option<Snapshot>
    var chunkTransfer: Option<Transfer>
    /** The two files that the persister keeps. */
    var disk: Disk

    constructor (id: NodeId, peers: seq<NodeId>, state: PersistentState, entries: seq<Entry>, data: Bytes, d: Disk)
      ensures View()
              == Node(id, peers, state.term, state.votedFor, entries, 0, 0, Follower, NOBODY, {}, map[], map[], data,
                      d.snapshot, None)
      ensures disk == d && fresh(log)
    {
      this.id, this.peers := id, peers;
      log := new L.Log();
      currentTerm, votedFor, commitIndex, lastApplied := state.term, state.votedFor, 0, 0;
      role, leaderId, votesReceived, nextIndex, matchIndex := Follower, NOBODY, {}, map[], map[];
      snapshotData, pendingSnapshot, chunkTransfer, disk := data, d.snapshot, None, d;
      new;
      log.entries := entries;
    }

    ghost predicate Valid()
      reads this, log
    {
      |log.entries| > 0
    }

    /** The fields as one value. */
    ghost function View(): (n: Node)
      reads this, log
      ensures Valid() ==> ValidNode(n)
    {
      Node(id, peers, currentTerm, votedFor, log.entries, commitIndex, lastApplied, role, leaderId, votesReceived,
           nextIndex, matchIndex, snapshotData, pendingSnapshot, chunkTransfer)
    }

    // ----------------------------------------------------------- persistence

    method Persist(save: bool) returns (ok: bool)
      requires Valid()
      modifies this`disk
      ensures ok == save && View() == old(View())
      ensures disk == if save then Saved(View(), old(disk)) else old(disk)
    {
      if save {
        disk := disk.(state := Some(PersistentState(currentTerm, votedFor, log.entries[1..])));
      }
      return save;
    }

    method StepDown(term: nat, save: bool) returns (ok: bool)
      requires Valid()
      modifies this
      ensures Valid() && ok == save && (View(), disk) == BecomeFollower(old(View()), old(disk), term, save)
    {
      var oldTerm, oldVotedFor := currentTerm, votedFor;
      currentTerm := term;
      votedFor := NOBODY;
      assert View() == old(View()).(currentTerm := term, votedFor := NOBODY);
      ok := Persist(save);
      if !ok {
        currentTerm, votedFor := oldTerm, oldVotedFor;
        return;
      }
      role := Follower;
      leaderId := NOBODY;
      votesReceived := {};
    }

    // ------------------------------------------------------------- elections

    method Elect(config: Config, save: bool) returns (sent: set<Message>)
      requires Valid()
      modifies this
      ensures Valid() && Outcome(View(), disk, sent) == StartElection(old(View()), old(disk), config, save)
    {
      hide BecomeLeader, VoteCall, Majority, Saved;
      var oldTerm, oldVotedFor := currentTerm, votedFor;
      currentTerm := currentTerm + 1;
      votedFor := id;
      assert View() == old(View()).(currentTerm := currentTerm, votedFor := id);
      var ok := Persist(save);
      if !ok {
        currentTerm, votedFor := oldTerm, oldVotedFor;
        return {};
      }
      role := Candidate;
      votesReceived := {id};
      assert View()
             == old(View()).(currentTerm := currentTerm, votedFor := id, role := Candidate, votesReceived := {id});
      if |votesReceived| >= Majority(|peers| + 1) {
        sent := Lead(config);
        return;
      }
      sent := RequestVotes();
    }

    method RequestVotes() returns (sent: set<Message>)
      requires Valid()
      ensures sent == set p | p in peers :: VoteCall(View(), p)
    {
      sent := {};
      for i := 0 to |peers|
        invariant sent == set p | p in peers[..i] :: VoteCall(View(), p)
      {
        var call := VoteRequest(id, peers[i],
                                RequestVoteArgs(currentTerm, id, L.LastIndex(log.entries), L.LastTerm(log.entries)));
        assert call == VoteCall(View(), peers[i]);
        sent := sent + {call};
      }
      assert peers[..|peers|] == peers;
    }

    method Lead(config: Config) returns (sent: set<Message>)
      requires Valid()
      modifies this
      ensures Valid() && Outcome(View(), disk, sent) == BecomeLeader(old(View()), old(disk), config)
    {
      hide Assigned, Broadcast;
      role := Leader;
      leaderId := id;
      votesReceived := {};
      ResetProgress();
      sent := BroadcastAppendEntries(config);
    }

    method ResetProgress()
      requires Valid()
      modifies this`nextIndex, this`matchIndex
      ensures nextIndex == Assigned(peers, L.LastIndex(log.entries) + 1) && matchIndex == Assigned(peers, 0)
    {
      var lastIndex := L.LastIndex(log.entries);
      nextIndex := map[];
      matchIndex := map[];
      for i := 0 to |peers|
        invariant nextIndex == Assigned(peers[..i], lastIndex + 1) && matchIndex == Assigned(peers[..i], 0)
      {
        nextIndex := nextIndex[peers[i] := lastIndex + 1];
        matchIndex := matchIndex[peers[i] := 0];
        assert peers[..i + 1][..i] == peers[..i];
      }
      assert peers[..|peers|] == peers;
    }

    method ReceiveVote(config: Config, peer: NodeId, args: RequestVoteArgs, reply: RequestVoteReply, save: bool)
        returns (sent: set<Message>)
      requires Valid()
      modifies this
      ensures Valid()
      ensures Outcome(View(), disk, sent) == OnVoteReply(old(View()), old(disk), config, peer, args, reply, save)
    {
      sent := {};
      if reply.term > currentTerm {
        var _ := StepDown(reply.term, save);
        return;
      }
      if role != Candidate || currentTerm != args.term || !reply.granted {
        return;
      }
      votesReceived := votesReceived + {peer};
      if |votesReceived| >= Majority(|peers| + 1) {
        sent := Lead(config);
      }
    }

    method Vote(args: RequestVoteArgs, saveTerm: bool, saveVote: bool) returns (reply: RequestVoteReply)
      requires Valid()
      modifies this
      ensures Valid() && (View(), disk, reply) == HandleRequestVote(old(View()), old(disk), args, saveTerm, saveVote)
    {
      if args.term > currentTerm {
        var ok := StepDown(args.term, saveTerm);
        if !ok {
          return RequestVoteReply(currentTerm, false);
        }
      }
      if args.term < currentTerm {
        return RequestVoteReply(currentTerm, false);
      }
      var canVote := votedFor == NOBODY || votedFor == args.candidate;
      var upToDate := LogIsUpToDate(args.lastIndex, args.lastTerm, L.LastIndex(log.entries), L.LastTerm(log.entries));
      if !canVote || !upToDate {
        return RequestVoteReply(currentTerm, false);
      }
      var oldVotedFor := votedFor;
      votedFor := args.candidate;
      var saved := Persist(saveVote);
      if !saved {
        votedFor := oldVotedFor;
        return RequestVoteReply(currentTerm, false);
      }
      return RequestVoteReply(currentTerm, true);
    }

    // ----------------------------------------------------------- replication

    method BroadcastAppendEntries(config: Config) returns (sent: set<Message>)
      requires Valid()
      modifies this`commitIndex
      ensures Valid() && Outcome(View(), disk, sent) == Broadcast(old(View()), old(disk), config)
    {
      sent := {};
      for i := 0 to |peers|
        invariant View() == old(View())
        invariant sent == set p | p in peers[..i] :: PeerCall(View(), config, p)
      {
        var call := CallPeer(config, peers[i]);
        sent := sent + {call};
      }
      assert peers[..|peers|] == peers;
      MaybeAdvanceCommitIndex();
    }

    method CallPeer(config: Config, peer: NodeId) returns (call: Message)
      requires Valid()
      ensures call == PeerCall(View(), config, peer)
    {
      if Get(nextIndex, peer) <= log.entries[0].index {
        var snapshot := Snapshot(log.entries[0].index, log.entries[0].term, snapshotData);
        return ChunkCall(id, peer, currentTerm, snapshot, 0, config);
      }
      var prev := Get(nextIndex, peer) - 1;
      var term := L.TermAt(log.entries, prev);
      var prevTerm := if term.Some? then term.value else 0;
      var args := AppendEntriesArgs(currentTerm, id, prev, prevTerm, L.SliceFrom(log.entries, prev + 1), commitIndex);
      return AppendRequest(id, peer, args, 0);
    }

    method MaybeAdvanceCommitIndex()
      requires Valid()
      modifies this`commitIndex
      ensures View() == AdvanceCommit(old(View()))
    {
      ghost var n := View();
      var index: nat := L.LastIndex(log.entries);
      while index > commitIndex
        invariant View() == n
        invariant HighestCommittable(n, L.LastIndex(log.entries)) == HighestCommittable(n, index)
      {
        var term := L.TermAt(log.entries, index);
        if term.Some? && term.value == currentTerm {
          var count := 1;
          for i := 0 to |peers|
            invariant count == 1 + CountMatches(peers[..i], matchIndex, index)
          {
            assert peers[..i + 1][..i] == peers[..i];
            if Get(matchIndex, peers[i]) >= index {
              count := count + 1;
            }
          }
          assert peers[..|peers|] == peers;
          if count >= Majority(|peers| + 1) {
            commitIndex := index;
            return;
          }
        }
        index := index - 1;
      }
    }

    method ReceiveAppendReply(peer: NodeId, args: AppendEntriesArgs, reply: AppendEntriesReply, save: bool)
        returns (ack: bool)
      requires Valid()
      modifies this
      ensures Valid() && (View(), disk, ack) == OnAppendReply(old(View()), old(disk), peer, args, reply, save)
    {
      if reply.term > currentTerm {
        var _ := StepDown(reply.term, save);
        return false;
      }
      if role != Leader || currentTerm != args.term {
        return false;
      }
      if reply.success {
        RaiseMatch(peer, args.prevIndex + |args.entries|);
        MaybeAdvanceCommitIndex();
        return true;
      }
      if Get(nextIndex, peer) > 1 {
        nextIndex := nextIndex[peer := Get(nextIndex, peer) - 1];
      }
      return true;
    }

    method RaiseMatch(peer: NodeId, index: nat)
      modifies this`matchIndex, this`nextIndex
      ensures View() == Matched(old(View()), peer, index)
    {
      if index > Get(matchIndex, peer) {
        matchIndex := matchIndex[peer := index];
      }
      if index + 1 > Get(nextIndex, peer) {
        nextIndex := nextIndex[peer := index + 1];
      }
    }

    method ReceiveSnapshotReply(config: Config, peer: NodeId, args: InstallSnapshotArgs, snapshot: Snapshot,
                                reply: InstallSnapshotReply, save: bool)
      returns (sent: set<Message>)
      requires Valid()
      modifies this
      ensures Valid()
      ensures Outcome(View(), disk, sent)
              == OnSnapshotReply(old(View()), old(disk), config, peer, args, snapshot, reply, save)
    {
      sent := {};
      if reply.term > currentTerm {
        var _ := StepDown(reply.term, save);
        return;
      }
      if role != Leader || currentTerm != args.term || !reply.success {
        return;
      }
      if args.final {
        RaiseMatch(peer, snapshot.index);
        MaybeAdvanceCommitIndex();
        return;
      }
      sent := {ChunkCall(id, peer, args.term, snapshot, args.offset + |args.data|, config)};
    }

    method AppendEntries(args: AppendEntriesArgs, saveTerm: bool, saveLog: bool) returns (reply: AppendEntriesReply)
      requires Valid()
      modifies this, log
      ensures Valid() && (View(), disk, reply) == HandleAppendEntries(old(View()), old(disk), args, saveTerm, saveLog)
    {
      hide L.AppendAfter, L.Matching, Committed, Saved;
      if args.term > currentTerm {
        var ok := StepDown(args.term, saveTerm);
        if !ok {
          return AppendEntriesReply(currentTerm, false);
        }
      }
      if args.term < currentTerm {
        return AppendEntriesReply(currentTerm, false);
      }
      role := Follower;
      leaderId := args.leader;
      var termAtPrev := L.TermAt(log.entries, args.prevIndex);
      if termAtPrev.None? || termAtPrev.value != args.prevTerm {
        return AppendEntriesReply(currentTerm, false);
      }
      var oldEntries := log.entries;
      var changed := log.AppendEntriesAfter(args.prevIndex, args.entries);
      if changed {
        var saved := Persist(saveLog);
        if !saved {
          log.entries := oldEntries;
          return AppendEntriesReply(currentTerm, false);
        }
      }
      LearnCommit(args.leaderCommit, args.prevIndex + |args.entries|);
      return AppendEntriesReply(currentTerm, true);
    }

    method LearnCommit(leaderCommit: nat, lastNew: nat)
      modifies this`commitIndex
      ensures View() == Committed(old(View()), Smaller(leaderCommit, lastNew))
    {
      if leaderCommit > commitIndex {
        var newCommit := leaderCommit;
        if lastNew < newCommit {
          newCommit := lastNew;
        }
        if newCommit > commitIndex {
          commitIndex := newCommit;
        }
      }
    }

    method ProposeCommand(config: Config, command: Bytes, save: bool)
        returns (index: nat, term: nat, ok: bool, sent: set<Message>)
      requires Valid()
      modifies this, log
      ensures Valid() && Outcome(View(), disk, sent) == Propose(old(View()), old(disk), config, command, save)
      ensures ok ==> index == old(L.LastIndex(log.entries)) + 1 && term == old(currentTerm)
      ensures ok <==> old(role) == Leader && save
    {
      if role != Leader {
        return 0, 0, false, {};
      }
      term := currentTerm;
      index := L.LastIndex(log.entries) + 1;
      var oldEntries := log.entries;
      var at := log.Append(Entry(index, term, command));
      var saved := Persist(save);
      if !saved {
        log.entries := oldEntries;
        return 0, 0, false, {};
      }
      sent := BroadcastAppendEntries(config);
      ok := true;
    }

    /** The first half of a read barrier: the index to return, and the calls
        whose acknowledgements it waits for. */
    method BeginReadIndex(read: nat) returns (ok: bool, index: nat, calls: set<Message>)
      requires Valid()
      ensures ok <==> role == Leader
      ensures ok ==> index == commitIndex && calls == ReadCalls(View(), read)
    {
      if role != Leader {
        return false, 0, {};
      }
      ok, index := true, commitIndex;
      calls := {};
      for i := 0 to |peers|
        invariant calls == set p | p in peers[..i]
                  && Get(nextIndex, p) > L.Boundary(log.entries) :: AppendCall(View(), p, read)
      {
        var peer := peers[i];
        if Get(nextIndex, peer) <= log.entries[0].index {
          continue;
        }
        var prev := Get(nextIndex, peer) - 1;
        var term := L.TermAt(log.entries, prev);
        var prevTerm := if term.Some? then term.value else 0;
        var args := AppendEntriesArgs(currentTerm, id, prev, prevTerm, L.SliceFrom(log.entries, prev + 1), commitIndex);
        calls := calls + {AppendRequest(id, peer, args, read)};
      }
      assert peers[..|peers|] == peers;
    }

    /** The second half: the acknowledgements are counted, and the node must
        still lead in the term in which the read began. If each of the peers
        that were asked has answered as the cluster has recorded it, that is
        when the cluster lets the read succeed; a node without peers does not
        ask again whether it still leads. */
    method FinishReadIndex(term: nat, replies: seq<bool>, ghost asked: seq<NodeId>, ghost c: Cluster, ghost read: nat)
        returns (ok: bool)
      ensures ok <==>
                Quorum(View()) <= 1
                || (role == Leader && currentTerm == term && 1 + Acknowledged(replies) >= Quorum(View()))
      ensures id in c.nodes && c.nodes[id] == View() && IsReadOf(c, read, id, term)
              && Answered(c, read, asked, replies) ==>
        (ok <==> Quorum(View()) <= 1 || ReadSucceeds(c, read))
    {
      if IsReadOf(c, read, id, term) && Answered(c, read, asked, replies) {
        AcksCounted(asked, replies, c.barriers[read].acks);
      }
      var majority := Majority(|peers| + 1);
      if majority <= 1 {
        return true;
      }
      var acked := 1;
      for i := 0 to |replies|
        invariant acked == 1 + Acknowledged(replies[..i])
      {
        assert replies[..i + 1][..i] == replies[..i];
        if replies[i] {
          acked := acked + 1;
        }
      }
      assert replies[..|replies|] == replies;
      return role == Leader && currentTerm == term && acked >= majority;
    }

    // ------------------------------------------------------------- snapshots

    method TakeSnapshotOf(index: nat, data: Bytes, saveSnapshot: bool, saveState: bool) returns (ok: bool)
      requires Valid()
      modifies this, log
      ensures Valid() && (View(), disk) == CreateSnapshot(old(View()), old(disk), index, data, saveSnapshot, saveState)
      ensures ok <==> old(L.Boundary(log.entries)) < index <= old(lastApplied) && index <= old(commitIndex)
                      && old(L.TermAt(log.entries, index)).Some? && saveSnapshot && saveState
    {
      if index == 0 || index <= log.entries[0].index || index > lastApplied || index > commitIndex {
        return false;
      }
      var term := L.TermAt(log.entries, index);
      if term.None? || !saveSnapshot {
        return false;
      }
      disk := disk.(snapshot := Some(Snapshot(index, term.value, data)));
      var oldEntries := log.entries;
      var _ := log.Compact(index);
      var saved := Persist(saveState);
      if !saved {
        log.entries := oldEntries;
        return false;
      }
      snapshotData := data;
      return true;
    }

    method Receive(config: Config, args: InstallSnapshotArgs) returns (ok: bool, payload: Option<Bytes>)
      modifies this`chunkTransfer
      ensures (chunkTransfer, ok, payload) == ReceiveChunk(old(chunkTransfer), config, args)
    {
      if args.total > MAX_SNAPSHOT_DATA {
        return false, None;
      }
      var transfer;
      if args.offset == 0 {
        transfer := Transfer(args.lastIndex, args.lastTerm, args.total, []);
      } else {
        if chunkTransfer.None? || chunkTransfer.value.index != args.lastIndex
        || chunkTransfer.value.term != args.lastTerm
          || chunkTransfer.value.total != args.total || |chunkTransfer.value.buf| != args.offset
        {
          chunkTransfer := None;
          return false, None;
        }
        transfer := chunkTransfer.value;
      }
      if config.checksum(args.data) != args.checksum || |transfer.buf| + |args.data| > transfer.total {
        chunkTransfer := None;
        return false, None;
      }
      transfer := transfer.(buf := transfer.buf + args.data);
      chunkTransfer := Some(transfer);
      if !args.final {
        return true, None;
      }
      if |transfer.buf| != transfer.total {
        chunkTransfer := None;
        return false, None;
      }
      return true, Some(transfer.buf);
    }

    method InstallSnapshot(config: Config, args: InstallSnapshotArgs, saveTerm: bool, saveSnapshot: bool,
                           saveState: bool)
      returns (reply: InstallSnapshotReply)
      requires Valid()
      modifies this, log
      ensures Valid()
      ensures (View(), disk, reply)
              == HandleInstallSnapshot(old(View()), old(disk), config, args, saveTerm, saveSnapshot, saveState)
    {
      if args.term > currentTerm {
        var ok := StepDown(args.term, saveTerm);
        if !ok {
          return InstallSnapshotReply(currentTerm, false);
        }
      }
      if args.term < currentTerm {
        return InstallSnapshotReply(currentTerm, false);
      }
      role := Follower;
      leaderId := args.leader;
      if args.lastIndex <= log.entries[0].index {
        if chunkTransfer.Some? && args.lastIndex >= chunkTransfer.value.index {
          chunkTransfer := None;
        }
        return InstallSnapshotReply(currentTerm, true);
      }
      var data := args.data;
      if args.chunked {
        var ok, payload := Receive(config, args);
        if !ok || payload.None? {
          return InstallSnapshotReply(currentTerm, ok);
        }
        data := payload.value;
      } else {
        chunkTransfer := None;
      }
      reply := InstallPayload(Snapshot(args.lastIndex, args.lastTerm, data), saveSnapshot, saveState);
    }

    method InstallPayload(snapshot: Snapshot, saveSnapshot: bool, saveState: bool) returns (reply: InstallSnapshotReply)
      requires Valid()
      modifies this, log
      ensures Valid()
      ensures (View(), disk, reply)
              == Install(old(View()).(chunkTransfer := None), old(disk), snapshot, saveSnapshot, saveState)
    {
      chunkTransfer := None;
      if !saveSnapshot {
        return InstallSnapshotReply(currentTerm, false);
      }
      disk := disk.(snapshot := Some(snapshot));
      var oldEntries := log.entries;
      log.InstallSnapshotBoundary(snapshot.index, snapshot.term);
      var saved := Persist(saveState);
      if !saved {
        log.entries := oldEntries;
        return InstallSnapshotReply(currentTerm, false);
      }
      snapshotData := snapshot.data;
      pendingSnapshot := Some(snapshot);
      if snapshot.index > commitIndex {
        commitIndex := snapshot.index;
      }
      return InstallSnapshotReply(currentTerm, true);
    }

    // -------------------------------------------------------------- applying

    method CommittedFrom(from: nat) returns (entries: seq<Entry>)
      requires Valid()
      ensures entries == CommittedEntries(View(), from)
    {
      var start := if from == 0 then 1 else from;
      if start > commitIndex {
        return [];
      }
      return L.Range(log.entries, start, commitIndex);
    }

    method Mark(index: nat) returns (ok: bool)
      modifies this`lastApplied
      ensures View() == MarkApplied(old(View()), index) && ok == (old(lastApplied) < index <= commitIndex)
    {
      if index <= lastApplied || index > commitIndex {
        return false;
      }
      lastApplied := index;
      return true;
    }

    method ConfirmRestored(index: nat) returns (ok: bool)
      modifies this`lastApplied, this`pendingSnapshot
      ensures View() == ConfirmSnapshotRestored(old(View()), index)
      ensures ok <==> old(pendingSnapshot).Some? && old(pendingSnapshot).value.index == index <= commitIndex
    {
      if pendingSnapshot.None? || pendingSnapshot.value.index != index || index > commitIndex {
        return false;
      }
      if index > lastApplied {
        lastApplied := index;
      }
      pendingSnapshot := None;
      return true;
    }
  }

  /** How many of the replies acknowledge. */
  /** The cluster's read `read` was begun by node `id` in `term`. */
  ghost predicate IsReadOf(c: Cluster, read: nat, id: NodeId, term: nat) {
    read in c.barriers && c.barriers[read].node == id && c.barriers[read].term == term
  }

  /** Each of the peers that were asked, and nobody else, has answered as the
      cluster has recorded it. */
  ghost predicate Answered(c: Cluster, read: nat, asked: seq<NodeId>, replies: seq<bool>)
    requires read in c.barriers
  {
    && |replies| == |asked|
    && (forall i, j :: 0 <= i < j < |asked| ==> asked[i] != asked[j])
    && (forall i :: 0 <= i < |asked| ==> (replies[i] <==> asked[i] in c.barriers[read].acks))
    && (forall p :: p in c.barriers[read].acks ==> p in asked)
  }

  lemma {:induction false} AcksCounted(asked: seq<NodeId>, replies: seq<bool>, acks: set<NodeId>)
    requires |replies| == |asked| && forall i, j :: 0 <= i < j < |asked| ==> asked[i] != asked[j]
    requires (forall i :: 0 <= i < |asked| ==> (replies[i] <==> asked[i] in acks)) && forall p :: p in acks ==>
                                                                                        p in asked
    ensures Acknowledged(replies) == |acks|
  {
    if asked == [] {
      assert acks == {};
    } else {
      var k := |asked| - 1;
      var rest := acks - {asked[k]};
      forall p | p in rest
        ensures p in asked[..k]
      {
        var i :| 0 <= i < |asked| && asked[i] == p;
        assert asked[..k][i] == p;
      }
      AcksCounted(asked[..k], replies[..k], rest);
      if replies[k] {
        assert acks == rest + {asked[k]};
      } else {
        assert rest == acks;
      }
    }
  }

  function Acknowledged(replies: seq<bool>): nat {
    if replies == [] then 0
    else Acknowledged(replies[..|replies| - 1]) + if replies[|replies| - 1] then 1 else 0
  }

  lemma {:induction false} AboveConcat(a: seq<Entry>, b: seq<Entry>, floor: nat)
    ensures Above(a + b, floor) == Above(a, floor) + Above(b, floor)
  {
    if a == [] {
      assert a + b == b;
    } else {
      assert (a + b)[1..] == a[1..] + b;
      AboveConcat(a[1..], b, floor);
    }
  }

  /** The entries that lie above the snapshot. */
  method Retain(entries: seq<Entry>, floor: nat) returns (suffix: seq<Entry>)
    ensures suffix == Above(entries, floor)
  {
    suffix := [];
    for i := 0 to |entries|
      invariant suffix == Above(entries[..i], floor)
    {
      assert entries[..i + 1] == entries[..i] + [entries[i]];
      AboveConcat(entries[..i], [entries[i]], floor);
      if entries[i].index > floor {
        suffix := suffix + [entries[i]];
      }
    }
    assert entries[..|entries|] == entries;
  }

  /** A node from its files, or none if there is a gap between them. */
  method Open(id: NodeId, peers: seq<NodeId>, d: Disk) returns (node: Raft?)
    ensures node == null <==> NewNode(id, peers, d).None?
    ensures node != null ==>
              node.View() == NewNode(id, peers, d).value && node.disk == d && fresh(node) && fresh(node.log)
  {
    var state := if d.state.Some? then d.state.value else PersistentState(0, NOBODY, []);
    var floor, entries, data := Entry(0, 0, []), state.log, [];
    if d.snapshot.Some? {
      floor, data := Entry(d.snapshot.value.index, d.snapshot.value.term, []), d.snapshot.value.data;
      entries := Retain(state.log, floor.index);
      if entries != [] && entries[0].index != floor.index + 1 {
        return null;
      }
    }
    node := new Raft(id, peers, state, [floor] + entries, data, d);
  }
}
