/** What a Raft node does on each event, as a function of its state, its disk
    and the outcome of every save. A failed save leaves the disk as it was, and
    the node rolls back whatever the save was for. */
module RaftHandlers {
  import opened Options
  import opened RaftTypes
  import opened RaftMessages
  import opened RaftLog

  const MAX_SNAPSHOT_DATA: nat := 0x1000_0000

  /** What is fixed for the lifetime of a cluster: the checksum and the chunk size. */
  datatype Config = Config(checksum: Bytes -> nat, chunkSize: nat)

  datatype Node = Node(
    id: NodeId,
    peers: seq<NodeId>,
    currentTerm: nat,
    votedFor: NodeId,
    log: Slice,
    commitIndex: nat,
    lastApplied: nat,
    role: Role,
    leaderId: NodeId,
    votesReceived: set<NodeId>,
    nextIndex: map<NodeId, nat>,
    matchIndex: map<NodeId, nat>,
    snapshotData: Bytes,
    pendingSnapshot: Option<Snapshot>,
    chunkTransfer: Option<Transfer>)

  /** The node and its disk after an event, with the messages that it sent. */
  datatype Outcome = Outcome(node: Node, disk: Disk, sent: set<Message>)

  predicate ValidNode(n: Node) {
    |n.log| > 0
  }

  /** A Go map read: a missing key reads as zero. */
  function Get(m: map<NodeId, nat>, key: NodeId): nat {
    if key in m then m[key] else 0
  }

  function Quorum(n: Node): nat {
    Majority(|n.peers| + 1)
  }

  function Saved(n: Node, d: Disk): Disk
    requires ValidNode(n)
  {
    d.(state := Some(PersistentState(n.currentTerm, n.votedFor, n.log[1..])))
  }

  function SavedSnapshot(d: Disk, snapshot: Snapshot): Disk {
    d.(snapshot := Some(snapshot))
  }

  // ------------------------------------------------------------------- terms

  function SteppedDown(n: Node, term: nat): Node {
    n.(currentTerm := term, votedFor := NOBODY, role := Follower, leaderId := NOBODY, votesReceived := {})
  }

  /** Steps down to `term` if that can be saved. */
  function BecomeFollower(n: Node, d: Disk, term: nat, save: bool): (Node, Disk)
    requires ValidNode(n)
  {
    if save then (SteppedDown(n, term), Saved(SteppedDown(n, term), d)) else (n, d)
  }

  /** The part that every request handler starts with: adopt a later term, and
      refuse an earlier one or a later one that cannot be saved. */
  function Recognize(n: Node, d: Disk, term: nat, save: bool): (Node, Disk, bool)
    requires ValidNode(n)
  {
    var (n', d') := if term > n.currentTerm then BecomeFollower(n, d, term, save) else (n, d);
    (n', d', n'.currentTerm == term)
  }

  // --------------------------------------------------------------- elections

  function StartElection(n: Node, d: Disk, config: Config, save: bool): Outcome
    requires ValidNode(n)
  {
    var bumped := n.(currentTerm := n.currentTerm + 1, votedFor := n.id);
    if !save then Outcome(n, d, {})
    else
      var candidate := bumped.(role := Candidate, votesReceived := {n.id});
      var d' := Saved(bumped, d);
      if |candidate.votesReceived| >= Quorum(n) then BecomeLeader(candidate, d', config)
      else Outcome(candidate, d', set p | p in n.peers :: VoteCall(candidate, p))
  }

  function VoteCall(n: Node, peer: NodeId): Message
    requires ValidNode(n)
  {
    VoteRequest(n.id, peer, RequestVoteArgs(n.currentTerm, n.id, LastIndex(n.log), LastTerm(n.log)))
  }

  /** The same value for every peer. */
  function Assigned(peers: seq<NodeId>, value: nat): (m: map<NodeId, nat>)
    ensures forall p :: p in m <==> p in peers
    ensures forall p :: p in m ==> m[p] == value
  {
    if peers == [] then map[] else Assigned(peers[..|peers| - 1], value)[peers[|peers| - 1] := value]
  }

  function BecomeLeader(n: Node, d: Disk, config: Config): Outcome
    requires ValidNode(n)
  {
    var leader := n.(
      role := Leader,
      leaderId := n.id,
      votesReceived := {},
      nextIndex := Assigned(n.peers, LastIndex(n.log) + 1),
      matchIndex := Assigned(n.peers, 0));
    Broadcast(leader, d, config)
  }

  function OnVoteReply(n: Node, d: Disk, config: Config, peer: NodeId, args: RequestVoteArgs, reply: RequestVoteReply,
                       save: bool): Outcome
    requires ValidNode(n)
  {
    if reply.term > n.currentTerm then
      var (n', d') := BecomeFollower(n, d, reply.term, save);
      Outcome(n', d', {})
    else if n.role != Candidate || n.currentTerm != args.term || !reply.granted then Outcome(n, d, {})
    else
      var counted := n.(votesReceived := n.votesReceived + {peer});
      if |counted.votesReceived| >= Quorum(n) then BecomeLeader(counted, d, config)
      else Outcome(counted, d, {})
  }

  function HandleRequestVote(n: Node, d: Disk, args: RequestVoteArgs, saveTerm: bool,
                             saveVote: bool): (Node, Disk, RequestVoteReply)
    requires ValidNode(n)
  {
    var (n1, d1, current) := Recognize(n, d, args.term, saveTerm);
    if !current then (n1, d1, RequestVoteReply(n1.currentTerm, false))
    else
      var canVote := n1.votedFor == NOBODY || n1.votedFor == args.candidate;
      var upToDate := LogIsUpToDate(args.lastIndex, args.lastTerm, LastIndex(n1.log), LastTerm(n1.log));
      if !canVote || !upToDate || !saveVote then (n1, d1, RequestVoteReply(n1.currentTerm, false))
      else
        var n2 := n1.(votedFor := args.candidate);
        (n2, Saved(n2, d1), RequestVoteReply(n2.currentTerm, true))
  }

  // ------------------------------------------------------------- replication

  /** The AppendEntries call for `peer`, from what the leader believes it lacks. */
  function AppendCall(n: Node, peer: NodeId, read: nat): Message
    requires ValidNode(n) && Get(n.nextIndex, peer) > Boundary(n.log)
  {
    var prev := Get(n.nextIndex, peer) - 1;
    var prevTerm := match TermAt(n.log, prev) case Some(t) => t case None => 0;
    AppendRequest(n.id, peer,
      AppendEntriesArgs(n.currentTerm, n.id, prev, prevTerm, SliceFrom(n.log, prev + 1), n.commitIndex), read)
  }

  function PeerCall(n: Node, config: Config, peer: NodeId): Message
    requires ValidNode(n)
  {
    if Get(n.nextIndex, peer) <= Boundary(n.log)
    then ChunkCall(n.id, peer, n.currentTerm, Snapshot(Boundary(n.log), n.log[0].term, n.snapshotData), 0, config)
    else AppendCall(n, peer, 0)
  }

  function Broadcast(n: Node, d: Disk, config: Config): Outcome
    requires ValidNode(n)
  {
    Outcome(AdvanceCommit(n), d, set p | p in n.peers :: PeerCall(n, config, p))
  }

  /** The chunk of `snapshot` that starts at `offset`. */
  function ChunkCall(id: NodeId, peer: NodeId, term: nat, snapshot: Snapshot, offset: nat, config: Config): Message {
    var total := |snapshot.data|;
    var end := if offset + config.chunkSize > total then total else offset + config.chunkSize;
    var chunk := if offset <= end then snapshot.data[offset..end] else [];
    SnapshotRequest(id, peer,
      InstallSnapshotArgs(term, id, snapshot.index, snapshot.term, chunk, true, offset, end == total, total,
                          config.checksum(chunk)),
      snapshot)
  }

  /** How many of `peers` are known to hold index `index`. */
  function CountMatches(peers: seq<NodeId>, matchIndex: map<NodeId, nat>, index: nat): (k: nat)
    ensures k <= |peers|
  {
    if peers == [] then 0
    else CountMatches(peers[..|peers| - 1], matchIndex, index)
         + (if Get(matchIndex, peers[|peers| - 1]) >= index then 1 else 0)
  }

  /** Index `index` may be committed by the leader's count. */
  predicate Committable(n: Node, index: nat)
    requires ValidNode(n)
  {
    TermAt(n.log, index) == Some(n.currentTerm) && 1 + CountMatches(n.peers, n.matchIndex, index) >= Quorum(n)
  }

  /** The highest committable index in (commitIndex, upTo], or commitIndex. */
  function HighestCommittable(n: Node, upTo: nat): (k: nat)
    requires ValidNode(n)
    ensures k == n.commitIndex || (n.commitIndex < k <= upTo && Committable(n, k))
    ensures forall i :: k < i <= upTo ==> !Committable(n, i)
  {
    if upTo <= n.commitIndex || Committable(n, upTo) then (if upTo <= n.commitIndex then n.commitIndex else upTo)
    else HighestCommittable(n, upTo - 1)
  }

  function AdvanceCommit(n: Node): Node
    requires ValidNode(n)
  {
    n.(commitIndex := HighestCommittable(n, LastIndex(n.log)))
  }

  /** The leader's side of an AppendEntries round trip, and whether it counts
      as the peer's acknowledgement of this leadership. */
  function OnAppendReply(n: Node, d: Disk, peer: NodeId, args: AppendEntriesArgs, reply: AppendEntriesReply,
                         save: bool): (Node, Disk, bool)
    requires ValidNode(n)
  {
    if reply.term > n.currentTerm then
      var (n', d') := BecomeFollower(n, d, reply.term, save);
      (n', d', false)
    else if n.role != Leader || n.currentTerm != args.term then (n, d, false)
    else if reply.success then (AdvanceCommit(Matched(n, peer, args.prevIndex + |args.entries|)), d, true)
    else (BackedOff(n, peer), d, true)
  }

  function Matched(n: Node, peer: NodeId, index: nat): Node {
    n.(matchIndex := if index > Get(n.matchIndex, peer) then n.matchIndex[peer := index] else n.matchIndex,
       nextIndex := if index + 1 > Get(n.nextIndex, peer) then n.nextIndex[peer := index + 1] else n.nextIndex)
  }

  function BackedOff(n: Node, peer: NodeId): Node {
    if Get(n.nextIndex, peer) > 1 then n.(nextIndex := n.nextIndex[peer := Get(n.nextIndex, peer) - 1]) else n
  }

  function OnSnapshotReply(n: Node, d: Disk, config: Config, peer: NodeId, args: InstallSnapshotArgs,
                           snapshot: Snapshot, reply: InstallSnapshotReply, save: bool): Outcome
    requires ValidNode(n)
  {
    if reply.term > n.currentTerm then
      var (n', d') := BecomeFollower(n, d, reply.term, save);
      Outcome(n', d', {})
    else if n.role != Leader || n.currentTerm != args.term || !reply.success then Outcome(n, d, {})
    else if args.final then Outcome(AdvanceCommit(Matched(n, peer, snapshot.index)), d, {})
    else Outcome(n, d, {ChunkCall(n.id, peer, args.term, snapshot, args.offset + |args.data|, config)})
  }

  function HandleAppendEntries(n: Node, d: Disk, args: AppendEntriesArgs, saveTerm: bool,
                               saveLog: bool): (Node, Disk, AppendEntriesReply)
    requires ValidNode(n)
  {
    var (n1, d1, current) := Recognize(n, d, args.term, saveTerm);
    if !current then (n1, d1, AppendEntriesReply(n1.currentTerm, false))
    else
      var n2 := n1.(role := Follower, leaderId := args.leader);
      if TermAt(n2.log, args.prevIndex) != Some(args.prevTerm) then (n2, d1, AppendEntriesReply(n2.currentTerm, false))
      else
        var changed := Matching(n2.log, args.prevIndex, args.entries) < |args.entries|;
        if changed && !saveLog then (n2, d1, AppendEntriesReply(n2.currentTerm, false))
        else
          var n3 := n2.(log := AppendAfter(n2.log, args.prevIndex, args.entries));
          var d3 := if changed then Saved(n3, d1) else d1;
          (Committed(n3, Smaller(args.leaderCommit, args.prevIndex + |args.entries|)), d3,
           AppendEntriesReply(n3.currentTerm, true))
  }

  function Smaller(a: nat, b: nat): nat {
    if b < a then b else a
  }

  function Committed(n: Node, index: nat): Node {
    if index > n.commitIndex then n.(commitIndex := index) else n
  }

  /** A client's command, appended and replicated if this node leads and can save it. */
  function Propose(n: Node, d: Disk, config: Config, command: Bytes, save: bool): Outcome
    requires ValidNode(n)
  {
    if n.role != Leader || !save then Outcome(n, d, {})
    else
      var n' := n.(log := n.log + [Entry(LastIndex(n.log) + 1, n.currentTerm, command)]);
      Broadcast(n', Saved(n', d), config)
  }

  /** The confirmation round of a read barrier: one call to every peer that an
      AppendEntries can still reach. */
  function ReadCalls(n: Node, read: nat): set<Message>
    requires ValidNode(n)
  {
    set p | p in n.peers && Get(n.nextIndex, p) > Boundary(n.log) :: AppendCall(n, p, read)
  }

  // --------------------------------------------------------------- snapshots

  /** A snapshot of everything applied, if both saves succeed. */
  function CreateSnapshot(n: Node, d: Disk, index: nat, data: Bytes, saveSnapshot: bool, saveState: bool): (Node, Disk)
    requires ValidNode(n)
  {
    if index <= Boundary(n.log) || index > n.lastApplied || index > n.commitIndex || TermAt(n.log, index).None?
    || !saveSnapshot
    then (n, d)
    else
      var term := TermAt(n.log, index).value;
      var d1 := SavedSnapshot(d, Snapshot(index, term, data));
      var n1 := n.(log := Compacted(n.log, index, term));
      if !saveState then (n, d1) else (n1.(snapshotData := data), Saved(n1, d1))
  }

  /** One chunk folded into the transfer: the transfer that remains, whether
      the chunk was accepted, and the payload if it is complete. */
  function ReceiveChunk(transfer: Option<Transfer>, config: Config,
                        args: InstallSnapshotArgs): (Option<Transfer>, bool, Option<Bytes>) {
    if args.total > MAX_SNAPSHOT_DATA then (transfer, false, None)
    else if args.offset > 0 && !Continues(transfer, args) then (None, false, None)
    else
      var current := if args.offset == 0 then Transfer(args.lastIndex, args.lastTerm, args.total, [])
                     else transfer.value;
      if config.checksum(args.data) != args.checksum || |current.buf| + |args.data| > current.total
        then (None, false, None)
      else
        var grown := current.(buf := current.buf + args.data);
        if !args.final then (Some(grown), true, None)
        else if |grown.buf| != grown.total then (None, false, None)
        else (Some(grown), true, Some(grown.buf))
  }

  /** The chunk is the one that the transfer is waiting for. */
  predicate Continues(transfer: Option<Transfer>, args: InstallSnapshotArgs) {
    && transfer.Some?
    && transfer.value.index == args.lastIndex
    && transfer.value.term == args.lastTerm
    && transfer.value.total == args.total
    && |transfer.value.buf| == args.offset
  }

  function HandleInstallSnapshot(n: Node, d: Disk, config: Config, args: InstallSnapshotArgs,
                                 saveTerm: bool, saveSnapshot: bool,
                                 saveState: bool): (Node, Disk, InstallSnapshotReply)
    requires ValidNode(n)
  {
    var (n1, d1, current) := Recognize(n, d, args.term, saveTerm);
    if !current then (n1, d1, InstallSnapshotReply(n1.currentTerm, false))
    else
      var n2 := n1.(role := Follower, leaderId := args.leader);
      if args.lastIndex <= Boundary(n2.log) then
        var stale := n2.chunkTransfer.Some? && args.lastIndex >= n2.chunkTransfer.value.index;
        (if stale then n2.(chunkTransfer := None) else n2, d1, InstallSnapshotReply(n2.currentTerm, true))
      else
        var (transfer, accepted, payload) :=
          if args.chunked then ReceiveChunk(n2.chunkTransfer, config, args) else (None, true, Some(args.data));
        var n3 := n2.(chunkTransfer := transfer);
        if !accepted || payload.None? then (n3, d1, InstallSnapshotReply(n3.currentTerm, accepted))
        else Install(n3.(chunkTransfer := None), d1, Snapshot(args.lastIndex, args.lastTerm, payload.value),
                     saveSnapshot, saveState)
  }

  /** Makes a complete snapshot the start of this node's log: first its file,
      then the shorter log, and only then the node. */
  function Install(n: Node, d: Disk, snapshot: Snapshot, saveSnapshot: bool,
                   saveState: bool): (Node, Disk, InstallSnapshotReply)
    requires ValidNode(n)
  {
    if !saveSnapshot then (n, d, InstallSnapshotReply(n.currentTerm, false))
    else
      var d1 := SavedSnapshot(d, snapshot);
      if !saveState then (n, d1, InstallSnapshotReply(n.currentTerm, false))
      else
        var n1 := n.(log := WithBoundary(n.log, snapshot.index, snapshot.term));
        var n2 := n1.(snapshotData := snapshot.data, pendingSnapshot := Some(snapshot));
        (Committed(n2, snapshot.index), Saved(n1, d1), InstallSnapshotReply(n.currentTerm, true))
  }

  // ------------------------------------------------- applying and restarting

  function MarkApplied(n: Node, index: nat): Node {
    if n.lastApplied < index <= n.commitIndex then n.(lastApplied := index) else n
  }

  function ConfirmSnapshotRestored(n: Node, index: nat): Node {
    if n.pendingSnapshot.None? || n.pendingSnapshot.value.index != index || index > n.commitIndex then n
    else n.(lastApplied := if index > n.lastApplied then index else n.lastApplied, pendingSnapshot := None)
  }

  function CommittedEntries(n: Node, from: nat): seq<Entry>
    requires ValidNode(n)
  {
    var start := if from == 0 then 1 else from;
    if start > n.commitIndex then [] else Range(n.log, start, n.commitIndex)
  }

  /** The persisted entries that lie above the snapshot. */
  function Above(entries: seq<Entry>, floor: nat): seq<Entry> {
    if entries == [] then []
    else (if entries[0].index > floor then [entries[0]] else []) + Above(entries[1..], floor)
  }

  /** The node that its two files give, or none if they do not fit together. */
  function NewNode(id: NodeId, peers: seq<NodeId>, d: Disk): Option<Node> {
    var term := if d.state.Some? then d.state.value.term else 0;
    var votedFor := if d.state.Some? then d.state.value.votedFor else NOBODY;
    var entries := if d.state.Some? then d.state.value.log else [];
    var suffix := if d.snapshot.Some? then Above(entries, d.snapshot.value.index) else entries;
    if d.snapshot.Some? && suffix != [] && suffix[0].index != d.snapshot.value.index + 1 then None
    else
      var boundary := if d.snapshot.Some? then Entry(d.snapshot.value.index, d.snapshot.value.term, [])
                      else Entry(0, 0, []);
      Some(Node(id, peers, term, votedFor, [boundary] + suffix, 0, 0, Follower, NOBODY, {}, map[], map[],
                if d.snapshot.Some? then d.snapshot.value.data else [], d.snapshot, None))
  }
}
