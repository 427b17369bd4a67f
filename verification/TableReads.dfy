/** Reading through the opened files of all active tables, newest first. */
module TableReads {
  import opened ByteStrings
  import opened Options
  import opened Tables
  import opened Merging
  import opened Compaction
  import opened SstFiles
  import opened SstReader

  function Parts(r: Reader): set<object> {
    {r, r.bloom, r.bloom.bits}
  }

  ghost predicate ServesOne(r: Reader, l: Layout, t: Table)
    reads Parts(r)
  {
    r.Serves(l, t)
  }

  /** The readers serve the tables, in the order of their ids from the newest
      to the oldest. */
  ghost predicate ServesAll(readers: seq<Reader>, ls: seq<Layout>, ids: seq<nat>, tables: TableSet)
    reads set i, o | 0 <= i < |readers| && o in Parts(readers[i]) :: o
  {
    && |readers| == |ls| == |ids|
    && (forall i, j :: 0 <= i < j < |ids| ==> ids[j] < ids[i])
    && (forall id :: id in tables <==> id in ids)
    && (forall i :: 0 <= i < |ids| ==> ids[i] in tables && ServesOne(readers[i], ls[i], tables[ids[i]]))
  }

  /** What the newest table with the key says. */
  method Lookup(readers: seq<Reader>, key: Bytes, ghost ls: seq<Layout>, ghost ids: seq<nat>, ghost tables: TableSet)
    returns (value: Option<Bytes>)
    requires ServesAll(readers, ls, ids, tables) && key != []
    ensures value == View(tables, key)
  {
    hide Newest, Lays, Increasing, Find;
    for i := 0 to |readers|
      invariant forall j :: 0 <= j < i ==> !Has(tables, ids[j], key)
    {
      assert ServesOne(readers[i], ls[i], tables[ids[i]]);
      var found, result, ok := readers[i].Get(key, ls[i], tables[ids[i]]);
      if result != NotFound {
        NewestAt(ids, tables, key, i);
        return if result == Found then Some(found) else None;
      }
    }
    NewestNone(tables, tables.Keys, key);
    return None;
  }

  lemma NewestAt(ids: seq<nat>, tables: TableSet, key: Bytes, i: nat)
    requires (forall a, b :: 0 <= a < b < |ids| ==> ids[b] < ids[a]) && (forall id :: id in tables <==> id in ids)
    requires i < |ids|
    requires Has(tables, ids[i], key) && forall j :: 0 <= j < i ==> !Has(tables, ids[j], key)
    ensures Newest(tables, tables.Keys, key) == Find(tables[ids[i]], key)
  {
    hide Newest;
    forall id | id in tables && Has(tables, id, key)
      ensures id <= ids[i]
    {
      var j :| 0 <= j < |ids| && ids[j] == id;
    }
    assert IsNewest(tables, tables.Keys, key, ids[i]);
    NewestIs(tables, tables.Keys, key, ids[i]);
  }

  /** A compaction that leaves out only older tables changes no lookup through
      the opened files. */
  method ReadAcross(before: seq<Reader>, after: seq<Reader>, key: Bytes, ghost ls: seq<Layout>, ghost ls': seq<Layout>,
                    ghost ids: seq<nat>, ghost ids': seq<nat>, ghost tables: TableSet, ghost tables': TableSet,
                    ghost inputs: set<nat>, ghost newID: nat)
    returns (value: Option<Bytes>, value': Option<Bytes>)
    requires key != [] && ServesAll(before, ls, ids, tables) && ServesAll(after, ls', ids', tables')
    requires inputs <= tables.Keys && inputs != {} && (forall id :: id in tables ==> id < newID)
    requires IsCompaction(tables, inputs, newID, tables') && OldestLeftOut(tables.Keys, inputs)
    ensures value == value' == View(tables, key)
  {
    hide IsCompaction, OldestLeftOut, View;
    CompactionPreserves(tables, inputs, newID, tables');
    value := Lookup(before, key, ls, ids, tables);
    value' := Lookup(after, key, ls', ids', tables');
  }
}
