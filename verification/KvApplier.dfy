/** The applier: the one that moves committed entries from a Raft node into the
    key-value state machine, and snapshots between the two. Its methods are
    proved equal to what the database as a whole is proved about. */
module KvApplier {
  import opened ByteStrings
  import opened Options
  import opened LittleEndian
  import opened KvCommands
  import opened KvMachine
  import KvSnapshots
  import opened KvStateMachine
  import L = RaftLog
  import R = RaftTypes
  import H = RaftHandlers
  import opened RaftNode
  import opened RaftData
  import RaftSystem
  import opened ForgeDb

  /** Committed entries are handed out with consecutive indexes above what has
      been applied. */
  lemma CommittedNumbered(n: H.Node)
    requires H.ValidNode(n) && L.WellFormed(n.log)
    ensures var entries := H.CommittedEntries(n, n.lastApplied + 1);
            forall i :: 0 <= i < |entries| ==>
              entries[i].index == entries[0].index + i && n.lastApplied < entries[i].index <= n.commitIndex
  {
  }

  /** The log of a store leads to what memory has or, after a write that could
      not be synced, to one entry more: the next one. */
  ghost predicate Logs(disk: Store, s: KV, entries: seq<R.Entry>) {
    disk == s.store || (entries != [] && disk == ForgeDb.Step(s, entries[0].command).store)
  }

  lemma LogsNext(disk: Store, s: KV, entries: seq<R.Entry>, i: nat)
    requires i < |entries|
    ensures Logs(disk, s, entries[i..]) <==> Logs(disk, s, [entries[i]])
  {
    hide ForgeDb.Step;
  }

  lemma LogsLevel(s: KV, entries: seq<R.Entry>)
    ensures Logs(s.store, s, entries)
  {
  }

  class Applier {
    const node: Raft
    const sm: KVStateMachine
    const crc: Bytes -> U32

    constructor (node: Raft, sm: KVStateMachine, crc: Bytes -> U32)
      ensures this.node == node && this.sm == sm && this.crc == crc
    {
      this.node, this.sm, this.crc := node, sm, crc;
    }

    /** The pending snapshot of the node, if any, can be decoded. */
    ghost predicate CanRestore(n: H.Node) {
      n.pendingSnapshot.Some? ==> Restored(n.pendingSnapshot.value.data, crc).Some?
    }

    ghost predicate Valid()
      reads this, node, node.log
    {
      node.Valid() && L.WellFormed(node.log.entries)
    }

    /** Restores what is pending, then applies what is committed, entry by
        entry, and stops at the first that fails: the store may fail after
        `budget` operations of a restore, and at the `faultAt`-th entry. What
        the log of the store then leads to is what the database as a whole is
        said to record. */
    method ApplyAvailable(budget: Option<nat>, faultAt: Option<nat>, fault: Fault)
        returns (applied: nat, err: bool, ghost restored: bool, ghost logged: bool)
      requires Valid()
      modifies node`lastApplied, node`pendingSnapshot, sm
      ensures Valid()
      ensures (node.View(), sm.State())
              == RaftSystem.Applier(KvOf(crc), old(node.View()), old(sm.State()), restored, sm.State(), applied)
      ensures budget.None? && CanRestore(old(node.View())) ==> restored
      ensures err <==> node.pendingSnapshot.Some? || H.CommittedEntries(node.View(), node.lastApplied + 1) != []
      ensures err && node.pendingSnapshot.None? ==>
        var rest := H.CommittedEntries(node.View(), node.lastApplied + 1);
        DecodeCommand(rest[0].command).None? || (faultAt == Some(applied) && fault != NoFault)
      ensures old(node.pendingSnapshot).None?
              && old(Logs(sm.disk, sm.State(), H.CommittedEntries(node.View(), node.lastApplied + 1))) ==>
        && Logs(sm.disk, sm.State(), H.CommittedEntries(node.View(), node.lastApplied + 1))
        && var states := RaftSystem.Recorded(KvOf(crc), node.View(), sm.State(), logged);
           sm.disk == states[|states| - 1].store
    {
      hide H.CommittedEntries, RaftSystem.ApplyEntries, RaftSystem.Applier, ForgeDb.Step, Logs, RaftSystem.Recorded,
           Restored, L.WellFormed, KvOf;
      ghost var n, s := node.View(), sm.State();
      var ok;
      ok, restored := RestorePendingSnapshot(budget, fault);
      if !ok {
        ApplierIs(crc, n, s, restored, sm.State(), 0);
        return 0, true, restored, false;
      }
      applied, err := ApplyCommitted(faultAt, fault);
      ApplierIs(crc, n, s, restored, sm.State(), applied);
      logged := LastRecorded(crc, node.View(), sm.State(), sm.disk);
    }

    method RestorePendingSnapshot(budget: Option<nat>, fault: Fault) returns (ok: bool, ghost restored: bool)
      requires Valid()
      modifies node`lastApplied, node`pendingSnapshot, sm
      ensures Valid()
      ensures old(node.pendingSnapshot).None? ==>
                ok && node.View() == old(node.View()) && sm.State() == old(sm.State()) && sm.disk == old(sm.disk)
      ensures old(node.pendingSnapshot).Some? ==>
                var n, snapshot := old(node.View()), old(node.pendingSnapshot).value;
                var state := Restored(snapshot.data, crc);
                if !restored || state.None? then !ok && node.View() == n
                else sm.State() == state.value && node.View() == H.ConfirmSnapshotRestored(n, snapshot.index)
      ensures ok <==> node.pendingSnapshot.None?
      ensures budget.None? && CanRestore(old(node.View())) ==> restored
    {
      hide KvSnapshots.Decode;
      var snapshot := node.pendingSnapshot;
      if snapshot.None? {
        return true, true;
      }
      var put := sm.RestoreSnapshot(snapshot.value.data, crc, budget, fault);
      if !put {
        return false, false;
      }
      ok := node.ConfirmRestored(snapshot.value.index);
      restored := true;
    }

    /** One committed entry: its command is applied, then it is marked. */
    method ApplyEntry(e: R.Entry, fault: Fault) returns (ok: bool)
      requires Valid()
      modifies node`lastApplied, sm
      ensures Valid()
      ensures node.View() == if ok then H.MarkApplied(old(node.View()), e.index) else old(node.View())
      ensures sm.State() == if ok then ForgeDb.Step(old(sm.State()), e.command) else old(sm.State())
      ensures ok ==> DecodeCommand(e.command).Some?
      ensures !ok ==> DecodeCommand(e.command).None? || fault != NoFault
      ensures old(Logs(sm.disk, sm.State(), [e])) ==> if ok then sm.disk == sm.store else Logs(sm.disk, sm.State(), [e])
    {
      hide DecodeCommand, L.WellFormed;
      var command := DecodeCommand(e.command);
      if command.None? {
        return false;
      }
      ExecutedTwice(sm.store, command.value);
      var _, failed := sm.ApplyCommand(command.value, fault);
      if failed {
        return false;
      }
      var _ := node.Mark(e.index);
      return true;
    }

    method ApplyCommitted(faultAt: Option<nat>, fault: Fault) returns (applied: nat, err: bool)
      requires Valid()
      modifies node`lastApplied, sm
      ensures Valid() && node.pendingSnapshot == old(node.pendingSnapshot)
      ensures (node.View(), sm.State())
              == RaftSystem.ApplyEntries(KvOf(crc), old(node.View()), old(sm.State()), applied)
      ensures var entries := old(H.CommittedEntries(node.View(), node.lastApplied + 1));
              && applied <= |entries|
              && (forall i :: 0 <= i < applied ==> DecodeCommand(entries[i].command).Some?)
              && (!err ==> applied == |entries|)
              && (err ==> applied < |entries|
                          && (DecodeCommand(entries[applied].command).None?
                              || (faultAt == Some(applied) && fault != NoFault)))
      ensures H.CommittedEntries(node.View(), node.lastApplied + 1)
              == old(H.CommittedEntries(node.View(), node.lastApplied + 1))[applied..]
      ensures old(Logs(sm.disk, sm.State(), H.CommittedEntries(node.View(), node.lastApplied + 1))) ==>
                Logs(sm.disk, sm.State(), H.CommittedEntries(node.View(), node.lastApplied + 1))
    {
      hide Logs, DecodeCommand, Apply, H.CommittedEntries, FoldFrom, KvOf, L.WellFormed, Marked,
           RaftSystem.ApplyEntries, H.MarkApplied, ForgeDb.Step;
      ghost var n, s, m := node.View(), sm.State(), KvOf(crc);
      var entries := node.CommittedFrom(node.lastApplied + 1);
      CommittedNumbered(n);
      assert entries[..0] == [] && entries[0..] == entries;
      ghost var logs := Logs(sm.disk, sm.State(), entries);
      NoEntries(crc, n, s);
      for i := 0 to |entries|
        invariant Valid()
        invariant node.View() == Marked(n, entries[..i])
        invariant sm.State() == FoldFrom(m, s, entries[..i])
        invariant forall j :: 0 <= j < i ==> DecodeCommand(entries[j].command).Some?
        invariant logs ==> Logs(sm.disk, sm.State(), entries[i..])
      {
        LogsNext(sm.disk, sm.State(), entries, i);
        var ok := ApplyEntry(entries[i], if faultAt == Some(i) then fault else NoFault);
        if !ok {
          LogsNext(sm.disk, sm.State(), entries, i);
          BatchOf(crc, n, s, entries, i);
          RestOf(n, i);
          return i, true;
        }
        LogsLevel(sm.State(), entries[i + 1..]);
        NextEntry(crc, n, s, entries, i);
      }
      assert entries[..|entries|] == entries;
      BatchOf(crc, n, s, entries, |entries|);
      RestOf(n, |entries|);
      return |entries|, false;
    }

    /** A snapshot of everything applied so far. One that is too large is not
        saved. */
    method CreateSnapshot(index: nat, saveSnapshot: bool, saveState: bool) returns (ok: bool)
      requires Valid()
      modifies node, node.log
      ensures sm.State() == old(sm.State())
      ensures var n, d, s := old(node.View()), old(node.disk), old(sm.State());
              (node.View(), node.disk) ==
              if index != n.lastApplied || !KvSnapshots.Savable(s) then (n, d)
              else H.CreateSnapshot(n, d, index, SnapshotOf(s, crc), saveSnapshot
                                    && |SnapshotOf(s, crc)| <= H.MAX_SNAPSHOT_DATA, saveState)
    {
      if index != node.lastApplied {
        return false;
      }
      var data := sm.CreateSnapshot(crc);
      if data.None? {
        return false;
      }
      KvSnapshots.SnapshotUnique(data.value, SnapshotOf(sm.State(), crc), sm.State(), crc);
      ok := node.TakeSnapshotOf(index, data.value, saveSnapshot && |data.value| <= H.MAX_SNAPSHOT_DATA, saveState);
    }
  }

  lemma ApplierIs(crc: Bytes -> U32, n: H.Node, s: KV, restored: bool, damaged: KV, count: nat)
    requires H.ValidNode(n)
    ensures var r := RaftSystem.Applier(KvOf(crc), n, s, restored, damaged, count);
            && (n.pendingSnapshot.None? ==> r == RaftSystem.ApplyEntries(KvOf(crc), n, s, count))
            && (n.pendingSnapshot.Some? ==>
                  var index, state := n.pendingSnapshot.value.index, Restored(n.pendingSnapshot.value.data, crc);
                  var n' := H.ConfirmSnapshotRestored(n, index);
                  r == if !restored || state.None? then (n, damaged)
                       else if n'.pendingSnapshot.Some? then (n, state.value)
                       else RaftSystem.ApplyEntries(KvOf(crc), n', state.value, count))
  {
    hide RaftSystem.ApplyEntries, Restored;
  }

  lemma LastRecorded(crc: Bytes -> U32, n: H.Node, s: KV, disk: Store) returns (logged: bool)
    requires H.ValidNode(n)
    ensures Logs(disk, s, H.CommittedEntries(n, n.lastApplied + 1)) && n.pendingSnapshot.None? ==>
              var states := RaftSystem.Recorded(KvOf(crc), n, s, logged); disk == states[|states| - 1].store
  {
    hide H.CommittedEntries, ForgeDb.Step;
    logged := disk != s.store;
  }

  /** The node after each of the entries is marked. */
  ghost function Marked(n: H.Node, entries: seq<R.Entry>): H.Node {
    if entries == [] then n else H.MarkApplied(n, entries[|entries| - 1].index)
  }

  lemma NoEntries(crc: Bytes -> U32, n: H.Node, s: KV)
    ensures Marked(n, []) == n && FoldFrom(KvOf(crc), s, []) == s
  {
  }

  lemma NextEntry(crc: Bytes -> U32, n: H.Node, s: KV, entries: seq<R.Entry>, i: nat)
    requires i < |entries|
    requires forall j :: 0 <= j < |entries| ==>
               entries[j].index == entries[0].index + j && n.lastApplied < entries[j].index <= n.commitIndex
    ensures Marked(n, entries[..i + 1]) == H.MarkApplied(Marked(n, entries[..i]), entries[i].index)
    ensures FoldFrom(KvOf(crc), s, entries[..i + 1]) == Step(FoldFrom(KvOf(crc), s, entries[..i]), entries[i].command)
  {
    assert entries[..i + 1][..i] == entries[..i];
  }

  lemma BatchOf(crc: Bytes -> U32, n: H.Node, s: KV, entries: seq<R.Entry>, count: nat)
    requires H.ValidNode(n) && entries == H.CommittedEntries(n, n.lastApplied + 1) && count <= |entries|
    ensures RaftSystem.ApplyEntries(KvOf(crc), n, s, count)
            == (Marked(n, entries[..count]), FoldFrom(KvOf(crc), s, entries[..count]))
  {
    hide H.CommittedEntries, FoldFrom, KvOf;
    assert entries[..|entries|] == entries;
  }

  /** What is committed after `k` more entries are marked is the rest. */
  lemma RestOf(n: H.Node, k: nat)
    requires H.ValidNode(n) && L.WellFormed(n.log) && k <= |H.CommittedEntries(n, n.lastApplied + 1)|
    ensures var entries := H.CommittedEntries(n, n.lastApplied + 1);
            var n' := Marked(n, entries[..k]);
            H.CommittedEntries(n', n'.lastApplied + 1) == entries[k..]
  {
    hide L.Range;
    CommittedNumbered(n);
    var entries := H.CommittedEntries(n, n.lastApplied + 1);
    assert k > 0 ==> entries[..k][k - 1] == entries[k - 1];
    if entries != [] {
      RangeFrom(n.log, n.lastApplied + 1, n.commitIndex, k);
    }
  }

  lemma RangeFrom(l: L.Slice, from: nat, to: nat, k: nat)
    requires L.WellFormed(l) && k <= |L.Range(l, from, to)| && L.Range(l, from, to) != []
    ensures var entries := L.Range(l, from, to);
            && (k > 0 ==> L.Range(l, entries[k - 1].index + 1, to) == entries[k..])
            && (k > 0 && entries[k - 1].index + 1 > to ==> entries[k..] == [])
  {
  }
}
