/** What snapshots carry: the state of the state machine after a prefix of the
    committed commands, whole on disk and in pieces on the wire. */
module RaftData {
  import opened Options
  import opened RaftTypes
  import opened RaftMessages
  import opened RaftLog
  import opened RaftHandlers
  import opened RaftStreams

  /** A state machine that is driven by committed commands. When its process
      ends, the next one starts with what `restart` says is left. A state that
      is not too large can be saved to bytes, and bytes may give back a state. */
  datatype Machine<!S> = Machine(
    init: S, apply: (S,
                     Bytes) -> S, restart: S -> S, savable: S -> bool, encode: S -> Bytes, decode: Bytes -> Option<S>)

  /** The state that `entries` lead to from `s`. */
  function FoldFrom<S>(m: Machine<S>, s: S, entries: seq<Entry>): S {
    if entries == [] then s
    else m.apply(FoldFrom(m, s, entries[..|entries| - 1]), entries[|entries| - 1].command)
  }

  function Fold<S>(m: Machine<S>, entries: seq<Entry>): S {
    FoldFrom(m, m.init, entries)
  }

  lemma {:induction false} FoldAppend<S>(m: Machine<S>, s: S, a: seq<Entry>, b: seq<Entry>)
    ensures FoldFrom(m, s, a + b) == FoldFrom(m, FoldFrom(m, s, a), b)
  {
    if b == [] {
      assert a + b == a;
    } else {
      var k := |b| - 1;
      FoldAppend(m, s, a, b[..k]);
      assert (a + b)[..|a + b| - 1] == a + b[..k];
    }
  }

  // --------------------------------------------- what earlier lifetimes leave

  predicate Within(reached: seq<nat>, bound: nat) {
    forall i :: 0 <= i < |reached| ==> reached[i] <= bound
  }

  /** What a state machine starts with after lifetimes that applied the entries
      from the first on, each as far as `reached` says. */
  function Left<S>(m: Machine<S>, entries: seq<Entry>, reached: seq<nat>): S
    requires Within(reached, |entries|)
  {
    if reached == [] then m.init
    else
      var k := |reached| - 1;
      m.restart(FoldFrom(m, Left(m, entries, reached[..k]), entries[..reached[k]]))
  }

  /** A state after the first `n` entries, over what such lifetimes left. */
  function Resumed<S>(m: Machine<S>, entries: seq<Entry>, reached: seq<nat>, n: nat): S
    requires Within(reached, |entries|) && n <= |entries|
  {
    FoldFrom(m, Left(m, entries, reached), entries[..n])
  }

  /** A state that was saved is given back, and a state machine that has caught
      up with all earlier lifetimes is as if there had been none. */
  ghost predicate Faithful<S>(m: Machine<S>) {
    && (forall entries, reached, n: nat :: Within(reached, |entries|) && n <= |entries| ==>
          Restores(m, Resumed(m, entries, reached, n)))
    && (forall entries, reached :: Within(reached, |entries|) ==>
          Resumed(m, entries, reached, |entries|) == Fold(m, entries))
  }

  ghost predicate Restores<S>(m: Machine<S>, s: S) {
    m.savable(s) && |m.encode(s)| <= MAX_SNAPSHOT_DATA ==> m.decode(m.encode(s)) == Some(s)
  }

  lemma {:induction false} LeftForward<S>(m: Machine<S>, entries: seq<Entry>, entries': seq<Entry>, reached: seq<nat>)
    requires Within(reached, |entries|) && Within(reached, |entries'|)
    requires entries <= entries' || entries' <= entries
    ensures Left(m, entries', reached) == Left(m, entries, reached)
  {
    if reached != [] {
      var k := |reached| - 1;
      LeftForward(m, entries, entries', reached[..k]);
      assert entries'[..reached[k]] == entries[..reached[k]];
    }
  }

  // ------------------------------------------------------- states with a past

  /** The state after the first `n` committed entries, over what the lifetimes
      left that came as far as `reached` says. */
  ghost predicate Carried<S>(m: Machine<S>, chosen: seq<Entry>, reached: seq<nat>, s: S, n: nat) {
    n <= |chosen| && Within(reached, |chosen|) && s == Resumed(m, chosen, reached, n)
  }

  lemma CarriedForward<S>(m: Machine<S>, chosen: seq<Entry>, chosen': seq<Entry>, reached: seq<nat>, s: S, n: nat)
    requires chosen <= chosen' && Carried(m, chosen, reached, s, n)
    ensures Carried(m, chosen', reached, s, n)
  {
    hide FoldFrom, Left;
    LeftForward(m, chosen, chosen', reached);
    assert chosen'[..n] == chosen[..n];
  }

  lemma CarriedPlain<S>(m: Machine<S>, chosen: seq<Entry>, n: nat)
    requires n <= |chosen|
    ensures Carried(m, chosen, [], Fold(m, chosen[..n]), n)
  {
  }

  lemma CarriedOn<S>(m: Machine<S>, chosen: seq<Entry>, reached: seq<nat>, s: S, n: nat, batch: seq<Entry>)
    requires Carried(m, chosen, reached, s, n) && n + |batch| <= |chosen| && batch == chosen[n..n + |batch|]
    ensures Carried(m, chosen, reached, FoldFrom(m, s, batch), n + |batch|)
  {
    hide FoldFrom, Left;
    assert chosen[..n + |batch|] == chosen[..n] + batch;
    FoldAppend(m, Left(m, chosen, reached), chosen[..n], batch);
  }

  /** At or beyond all of them nothing of earlier lifetimes shows. */
  lemma CarriedExact<S>(m: Machine<S>, chosen: seq<Entry>, reached: seq<nat>, s: S, n: nat)
    requires Carried(m, chosen, reached, s, n) && Within(reached, n) && Faithful(m)
    ensures s == Fold(m, chosen[..n])
  {
    hide FoldFrom, Left, Restores;
    var entries := chosen[..n];
    LeftForward(m, chosen, entries, reached);
    assert entries[..n] == entries;
    assert s == Resumed(m, entries, reached, |entries|);
  }

  /** What a new process makes of a state: what those lifetimes left. */
  ghost predicate Leaves<S>(m: Machine<S>, chosen: seq<Entry>, s: S, reached: seq<nat>) {
    Within(reached, |chosen|) && m.restart(s) == Left(m, chosen, reached)
  }

  lemma CarriedLeaves<S>(m: Machine<S>, chosen: seq<Entry>, reached: seq<nat>, s: S, n: nat)
    requires Carried(m, chosen, reached, s, n)
    ensures Leaves(m, chosen, s, reached + [n])
  {
    hide FoldFrom;
    assert (reached + [n])[..|reached|] == reached;
  }

  lemma LeavesCarried<S>(m: Machine<S>, chosen: seq<Entry>, s: S, reached: seq<nat>)
    requires Leaves(m, chosen, s, reached)
    ensures Carried(m, chosen, reached, m.restart(s), 0)
  {
    assert chosen[..0] == [];
  }

  lemma LeavesForward<S>(m: Machine<S>, chosen: seq<Entry>, chosen': seq<Entry>, s: S, reached: seq<nat>)
    requires chosen <= chosen' && Leaves(m, chosen, s, reached)
    ensures Leaves(m, chosen', s, reached)
  {
    hide Left;
    LeftForward(m, chosen, chosen', reached);
  }

  // ---------------------------------------------------------------- the past

  /** What has happened so far, as far as the data depends on it: the committed
      entries, and for every snapshot that was saved how far the lifetimes had
      come whose leftovers are in it. */
  datatype Past = Past(chosen: seq<Entry>, lives: map<Snapshot, seq<nat>>)

  ghost predicate PastGrows(p: Past, p': Past) {
    && p.chosen <= p'.chosen
    && forall s :: s in p.lives ==> s in p'.lives && p'.lives[s] == p.lives[s]
  }

  /** A committed position, by its index and term. */
  predicate Covers(chosen: seq<Entry>, index: nat, term: nat) {
    0 < index <= |chosen| && chosen[index - 1].term == term
  }

  /** A snapshot that was saved: the bytes of a state after the prefix that it
      names, small enough to be saved and sent. */
  ghost predicate GoodSnapshot<S>(m: Machine<S>, p: Past, s: Snapshot) {
    && Covers(p.chosen, s.index, s.term)
    && s in p.lives && Within(p.lives[s], |p.chosen|)
    && m.savable(Resumed(m, p.chosen, p.lives[s], s.index))
    && s.data == m.encode(Resumed(m, p.chosen, p.lives[s], s.index))
    && |s.data| <= MAX_SNAPSHOT_DATA
  }

  /** Every snapshot that was ever saved is what it should be. */
  ghost predicate AllGood<S>(m: Machine<S>, p: Past) {
    forall s :: s in p.lives ==> GoodSnapshot(m, p, s)
  }

  /** Only snapshots that were saved are sent. */
  ghost predicate GoodMessages(p: Past, sent: set<Message>) {
    forall message :: message in sent && IsSnap(message) ==> message.snapshot in p.lives
  }

  /** The snapshot file, the snapshot kept for lagging peers and the snapshot
      to be restored are all snapshots that were saved. */
  ghost predicate GoodNode(p: Past, n: Node, d: Disk)
    requires ValidNode(n)
  {
    && (d.snapshot.Some? ==> d.snapshot.value in p.lives)
    && (Boundary(n.log) > 0 ==> Held(n) in p.lives)
    && (n.pendingSnapshot.Some? ==>
          && d.snapshot.Some?
          && n.pendingSnapshot.value in p.lives
          && n.pendingSnapshot.value.index == Boundary(n.log))
  }

  /** Unless a snapshot waits to be restored, the state machine is where the
      node says it is, over what earlier lifetimes left. */
  ghost predicate GoodState<S>(m: Machine<S>, p: Past, reached: seq<nat>, n: Node, app: S)
    requires ValidNode(n)
  {
    if n.pendingSnapshot.Some? then n.lastApplied <= n.pendingSnapshot.value.index
    else Boundary(n.log) <= n.lastApplied && Carried(m, p.chosen, reached, app, n.lastApplied)
  }

  /** As long as a node has no snapshot, whatever is left of its store's log
      gives a new process what some lifetimes left. */
  ghost predicate GoodLog<S>(m: Machine<S>, p: Past, d: Disk, log: seq<S>, lives: seq<seq<nat>>) {
    && |log| == |lives| > 0
    && (d.snapshot.None? ==> forall i :: 0 <= i < |log| ==> Leaves(m, p.chosen, log[i], lives[i]))
  }

  // ------------------------------------------------------------ as time goes on

  lemma SnapshotForward<S>(m: Machine<S>, p: Past, p': Past, s: Snapshot)
    requires PastGrows(p, p') && GoodSnapshot(m, p, s)
    ensures GoodSnapshot(m, p', s)
  {
    hide FoldFrom, Left;
    LeftForward(m, p.chosen, p'.chosen, p.lives[s]);
    assert p'.chosen[..s.index] == p.chosen[..s.index];
  }

  /** What a snapshot gives back when it is restored. */
  lemma PayloadRestores<S>(m: Machine<S>, p: Past, s: Snapshot)
    requires GoodSnapshot(m, p, s) && Faithful(m)
    ensures m.decode(s.data).Some? && Carried(m, p.chosen, p.lives[s], m.decode(s.data).value, s.index)
  {
    hide FoldFrom, Left;
    assert Restores(m, Resumed(m, p.chosen, p.lives[s], s.index));
  }

  /** A snapshot without leftovers of what lies beyond it is the snapshot of
      exactly the prefix that it names. */
  lemma PayloadExact<S>(m: Machine<S>, p: Past, s: Snapshot)
    requires GoodSnapshot(m, p, s) && Faithful(m) && Within(p.lives[s], s.index)
    ensures s.data == m.encode(Fold(m, p.chosen[..s.index]))
  {
    hide FoldFrom, Left, Faithful;
    CarriedExact(m, p.chosen, p.lives[s], Resumed(m, p.chosen, p.lives[s], s.index), s.index);
  }

  lemma AllForward<S>(m: Machine<S>, p: Past, p': Past)
    requires PastGrows(p, p') && AllGood(m, p) && forall s :: s in p'.lives && s !in p.lives ==> GoodSnapshot(m, p', s)
    ensures AllGood(m, p')
  {
    hide GoodSnapshot, PastGrows;
    forall s | s in p'.lives
      ensures GoodSnapshot(m, p', s)
    {
      if s in p.lives {
        SnapshotForward(m, p, p', s);
      }
    }
  }

  lemma NodeForward(p: Past, p': Past, n: Node, d: Disk)
    requires PastGrows(p, p') && ValidNode(n) && GoodNode(p, n, d)
    ensures GoodNode(p', n, d)
  {
  }

  lemma StateForward<S>(m: Machine<S>, p: Past, p': Past, reached: seq<nat>, n: Node, app: S)
    requires PastGrows(p, p') && ValidNode(n) && GoodState(m, p, reached, n, app)
    ensures GoodState(m, p', reached, n, app)
  {
    hide Carried;
    if n.pendingSnapshot.None? {
      CarriedForward(m, p.chosen, p'.chosen, reached, app, n.lastApplied);
    }
  }

  lemma LogForward<S>(m: Machine<S>, p: Past, p': Past, d: Disk, log: seq<S>, lives: seq<seq<nat>>)
    requires PastGrows(p, p') && GoodLog(m, p, d, log, lives)
    ensures GoodLog(m, p', d, log, lives)
  {
    hide Leaves;
    if d.snapshot.None? {
      forall i | 0 <= i < |log|
        ensures Leaves(m, p'.chosen, log[i], lives[i])
      {
        LeavesForward(m, p.chosen, p'.chosen, log[i], lives[i]);
      }
    }
  }

  /** A reply that acknowledges the last chunk means that the snapshot now
      lies within the follower's boundary. */
  lemma FinalMeansInstalled(n: Node, d: Disk, config: Config, args: InstallSnapshotArgs,
                            saveTerm: bool, saveSnapshot: bool, saveState: bool)
    requires ValidNode(n)
    ensures var (n', d', reply) := HandleInstallSnapshot(n, d, config, args, saveTerm, saveSnapshot, saveState);
            && ValidNode(n')
            && (reply.success && (args.final || !args.chunked) ==>
                  Boundary(n'.log) >= args.lastIndex)
  {
    hide Compacted;
    CompactedBoundary(n.log, args.lastIndex, args.lastTerm);
  }

  lemma CompactedBoundary(l: Slice, index: nat, term: nat)
    requires |l| > 0
    ensures |WithBoundary(l, index, term)| > 0 && Boundary(WithBoundary(l, index, term)) == index
    ensures WithBoundary(l, index, term)[0].term == term
  {
  }

  // ----------------------------------------------------------- lossless runs

  /** A sender and a receiver with nothing lost between them: chunk after
      chunk from `offset` on, until one is refused or completes the payload. */
  function Delivered(config: Config, id: NodeId, peer: NodeId, term: nat, s: Snapshot, offset: nat,
                     transfer: Option<Transfer>): Option<Bytes>
    requires config.chunkSize > 0 && offset <= |s.data|
    decreases |s.data| - offset
  {
    var args := ChunkCall(id, peer, term, s, offset, config).install;
    var (transfer', accepted, payload) := ReceiveChunk(transfer, config, args);
    if !accepted || payload.Some? || args.final then payload
    else Delivered(config, id, peer, term, s, offset + |args.data|, transfer')
  }

  /** Such a run gives the receiver exactly the sender's data, whatever it had
      been receiving before. */
  lemma {:induction false} LosslessDelivery(config: Config, id: NodeId, peer: NodeId, term: nat, s: Snapshot,
                                            offset: nat, transfer: Option<Transfer>)
    requires config.chunkSize > 0 && offset <= |s.data| <= MAX_SNAPSHOT_DATA
    requires offset > 0 ==> offset < |s.data| && transfer == Some(Transfer(s.index, s.term, |s.data|, s.data[..offset]))
    ensures Delivered(config, id, peer, term, s, offset, transfer) == Some(s.data)
    decreases |s.data| - offset
  {
    hide ChunkCall, ReceiveChunk;
    ChunkReceived(config, id, peer, term, s, offset, transfer);
    var args := ChunkCall(id, peer, term, s, offset, config).install;
    if !args.final {
      LosslessDelivery(config, id, peer, term, s, offset + |args.data|, ReceiveChunk(transfer, config, args).0);
    }
  }

  /** Each chunk in its turn is accepted and extends what has arrived. */
  lemma ChunkReceived(config: Config, id: NodeId, peer: NodeId, term: nat, s: Snapshot, offset: nat,
                      transfer: Option<Transfer>)
    requires config.chunkSize > 0 && offset <= |s.data| <= MAX_SNAPSHOT_DATA
    requires offset > 0 ==> offset < |s.data| && transfer == Some(Transfer(s.index, s.term, |s.data|, s.data[..offset]))
    ensures ChunkCall(id, peer, term, s, offset, config).SnapshotRequest?
    ensures var args := ChunkCall(id, peer, term, s, offset, config).install;
            var at := offset + |args.data|;
            && at <= |s.data|
            && (args.final <==> at == |s.data|)
            && (!args.final ==> args.data != [])
            && ReceiveChunk(transfer, config, args)
               == (Some(Transfer(s.index, s.term, |s.data|, s.data[..at])), true, if args.final then Some(s.data)
                                                                                  else None)
  {
    var args := ChunkCall(id, peer, term, s, offset, config).install;
    var buf := if offset == 0 then [] else transfer.value.buf;
    assert buf == s.data[..offset];
    assert buf + args.data == s.data[..offset + |args.data|];
    assert s.data[..|s.data|] == s.data;
  }
}
