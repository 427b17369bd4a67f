/** The store: every write goes to the log first and to memory after it is
    synced, and a store is recovered by replaying its log. */
module MemStores {
  import opened ByteStrings
  import opened Options
  import opened LittleEndian
  import opened WalRecords
  import opened Wal
  import opened SkipLists
  import opened MemTables

  /** What the records of a log amount to. */
  function FoldRecords(recs: seq<Record>): map<Bytes, Bytes> {
    if recs == [] then map[] else Applied(FoldRecords(recs[..|recs| - 1]), recs[|recs| - 1])
  }

  function Applied(m: map<Bytes, Bytes>, rec: Record): map<Bytes, Bytes> {
    if rec.op == OP_PUT then m[rec.key := rec.value] else m - {rec.key}
  }

  class MemStore {
    const mt: MemTable
    const log: Log

    /** A store on a log file, which may have been cut by a crash. */
    constructor (crc: Bytes -> U32, file: Bytes, synced: nat)
      requires synced <= |file|
      ensures mt.Valid() && mt.Live() == map[] && fresh(mt) && fresh(mt.list) && fresh(mt.list.nodes)
      ensures log.Valid() && fresh(log) && log.crc == crc && log.file == file && log.synced == synced && log.pos == 0
    {
      mt := new MemTable();
      log := new Log(crc, file, synced);
    }

    /** The log holds whole records and ends where the next is written. */
    ghost predicate Logs(recs: seq<Record>)
      reads this, log
    {
      log.Valid() && log.pos == |log.file| && AllLoggable(recs) && log.file == EncodeAll(recs, log.crc)
    }

    ghost predicate Valid()
      reads this, mt, mt.list, mt.list.nodes, log
    {
      mt.Valid() && log.Valid()
    }

    /** Applies one replayed record to memory. */
    method ApplyRecord(rec: Record, newLevel: nat) returns (ok: bool)
      requires mt.Valid() && Loggable(rec) && 1 <= newLevel <= MAX_LEVEL
      modifies mt, mt.list, mt.list.nodes
      ensures mt.Valid() && ok && mt.Live() == Applied(old(mt.Live()), rec)
      ensures forall n :: n in mt.list.nodes && n !in old(mt.list.nodes) ==> fresh(n)
    {
      if rec.op == OP_PUT {
        ok := mt.Put(rec.key, rec.value, newLevel);
      } else {
        ok := mt.Delete(rec.key, newLevel);
      }
    }

    /** Recovery: memory becomes the fold of the records that the log gives,
        unless the log is corrupt. */
    method Recover(levels: seq<nat>) returns (records: seq<Record>, ok: bool)
      requires Valid() && mt.Live() == map[] && (forall i :: 0 <= i < |levels| ==> 1 <= levels[i] <= MAX_LEVEL)
      requires |levels| >= |log.file|
      modifies mt, mt.list, mt.list.nodes, log
      ensures mt.Valid()
      ensures (records, ok) == (ReplayBytes(old(log.file), log.crc).records, ReplayBytes(old(log.file), log.crc).ok)
      ensures ok ==> mt.Live() == FoldRecords(records) && Logs(records)
      ensures forall n :: n in mt.list.nodes && n !in old(mt.list.nodes) ==> fresh(n)
    {
      hide ReplayBytes, EncodeAll;
      ReplayedIsEncoded(log.file, log.crc);
      FewRecords(log.file, log.crc);
      records, ok := log.Replay();
      ApplyAll(records, levels);
    }

    method ApplyAll(records: seq<Record>, levels: seq<nat>)
      requires mt.Valid() && mt.Live() == map[] && AllLoggable(records) && |records| <= |levels|
      requires forall i :: 0 <= i < |levels| ==> 1 <= levels[i] <= MAX_LEVEL
      modifies mt, mt.list, mt.list.nodes
      ensures mt.Valid() && mt.Live() == FoldRecords(records)
      ensures forall n :: n in mt.list.nodes && n !in old(mt.list.nodes) ==> fresh(n)
    {
      hide MemTable.Valid, MemTable.Live;
      for i := 0 to |records|
        invariant mt.Valid() && mt.Live() == FoldRecords(records[..i])
        invariant forall k :: 0 <= k < |mt.list.nodes| ==>
                    mt.list.nodes[k] in old(mt.list.nodes) || fresh(mt.list.nodes[k])
      {
        assert records[..i + 1][..i] == records[..i];
        ghost var before := mt.list.nodes;
        var _ := ApplyRecord(records[i], levels[i]);
        forall k | 0 <= k < |mt.list.nodes|
          ensures mt.list.nodes[k] in old(mt.list.nodes) || fresh(mt.list.nodes[k])
        {
          var n := mt.list.nodes[k];
          if n in before {
            var j :| 0 <= j < |before| && before[j] == n;
          }
        }
      }
      assert records[..|records|] == records;
    }

    /** Logs a record and syncs it: memory may change only after both. */
    method Write(rec: Record, written: Option<nat>, synced: bool, newLevel: nat) returns (ok: bool)
      requires Valid() && 1 <= newLevel <= MAX_LEVEL
      requires written.Some? ==> written.value < HEADER_SIZE + |rec.key| + |rec.value|
      modifies mt, mt.list, mt.list.nodes, log
      ensures Valid() && (ok <==> Loggable(rec) && written.None? && synced)
      ensures mt.Live() == if ok then Applied(old(mt.Live()), rec) else old(mt.Live())
      ensures ok ==> log.synced == |log.file|
      ensures forall recs :: old(Logs(recs)) && (written == None || written == Some(0)) ==>
        Logs(if Loggable(rec) && written.None? then recs + [rec] else recs)
    {
      hide EncodeRecord, MemTable.Valid, MemTable.Live;
      ghost var before := log.file;
      ok := log.Append(rec, written);
      if ok {
        ok := log.Sync(synced);
        if ok {
          ok := ApplyRecord(rec, newLevel);
        }
      }
      forall recs | old(Logs(recs)) && (written == None || written == Some(0))
        ensures Logs(if Loggable(rec) && written.None? then recs + [rec] else recs)
      {
        assert (recs + [rec])[..|recs|] == recs;
        assert before + [] == before;
      }
    }

    method Put(key: Bytes, value: Bytes, written: Option<nat>, synced: bool, newLevel: nat) returns (ok: bool)
      requires Valid() && 1 <= newLevel <= MAX_LEVEL
      requires written.Some? ==> written.value < HEADER_SIZE + |key| + |value|
      modifies mt, mt.list, mt.list.nodes, log
      ensures Valid() && (ok <==> key != [] && Loggable(Record(OP_PUT, key, value)) && written.None? && synced)
      ensures mt.Live() == if ok then old(mt.Live())[key := value] else old(mt.Live())
      ensures ok ==> log.synced == |log.file| && forall recs :: old(Logs(recs)) ==>
                                                   Logs(recs + [Record(OP_PUT, key, value)])
    {
      if |key| == 0 {
        return false;
      }
      ok := Write(Record(OP_PUT, key, value), written, synced, newLevel);
    }

    method Delete(key: Bytes, written: Option<nat>, synced: bool, newLevel: nat) returns (ok: bool)
      requires Valid() && 1 <= newLevel <= MAX_LEVEL
      requires written.Some? ==> written.value < HEADER_SIZE + |key|
      modifies mt, mt.list, mt.list.nodes, log
      ensures Valid() && (ok <==> key != [] && Loggable(Record(OP_DELETE, key, [])) && written.None? && synced)
      ensures mt.Live() == if ok then old(mt.Live()) - {key} else old(mt.Live())
      ensures ok ==> log.synced == |log.file| && forall recs :: old(Logs(recs)) ==>
                                                   Logs(recs + [Record(OP_DELETE, key, [])])
    {
      if |key| == 0 {
        return false;
      }
      ok := Write(Record(OP_DELETE, key, []), written, synced, newLevel);
    }
  }

  /** A file has fewer records than bytes. */
  lemma {:induction false} FewRecords(data: Bytes, crc: Bytes -> U32)
    ensures |ReplayBytes(data, crc).records| <= |data|
    decreases |data|
  {
    hide Parse;
    if data != [] && Parse(data, crc).Whole? {
      FewRecords(data[Parse(data, crc).size..], crc);
    }
  }

  /** Whatever a crash leaves of the file beyond what was synced, the store
      that is opened on it has every synced record, is the fold of the records
      that it found and can go on logging. It opens, with a prefix of the
      records, if no append had failed before. */
  method Reopen(s: State, keep: nat, crc: Bytes -> U32, levels: seq<nat>)
      returns (store: MemStore, records: seq<Record>, ok: bool)
    requires Inv(s, crc) && Enabled(s, Crashed(keep), crc)
    requires |levels| >= |s.data| && forall i :: 0 <= i < |levels| ==> 1 <= levels[i] <= MAX_LEVEL
    ensures ok ==> records == Step(s, Crashed(keep), crc).records && s.records[..s.durable] <= records
    ensures ok ==> store.Valid() && store.mt.Live() == FoldRecords(records) && store.Logs(records)
    ensures s.litter == [] ==> ok && records <= s.records
  {
    hide EncodeAll, ReplayBytes, MemTable.Live;
    CrashKeepsSynced(s, keep, crc);
    if s.litter == [] {
      CrashRecovers(s, keep, crc);
    }
    store := new MemStore(crc, s.data[..keep], 0);
    records, ok := store.Recover(levels);
  }
}
